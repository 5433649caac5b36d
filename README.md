# LinguaEar in Dafny

LinguaEar is a speech translator for iPhone with a companion watch app. This project models its core, screen by screen, as it behaves between the microphone, the speech synthesizer and a translation server.

- **The translator screen** (`MainScreen`, `main_screen.dfy`):
  - hold-to-speak and auto-response listening;
  - the "You speak" / "They hear" direction;
  - translation through the daily quota;
  - re-translation when the "They hear" language (`they`) changes;
  - quick phrases;
  - the phrase lists: the quick-phrase selection handed to Listen & Repeat (`QuickPhrases`, which is also `v1SelectedPhrasesForPractice`) and the full practice list `v1PracticePhrases`.
- **Listen & Repeat** (`ListenRepeat`, `listen_repeat.dfy`):
  - preset phrases translated once and cached by index, or a custom phrase;
  - a sentence-by-sentence player;
  - scoring of what the microphone heard.
- **Conversation practice** (`Conversation`, `conversation.dfy`):
  - "how do you say …" requests;
  - attempts at the current phrase;
  - small talk, charged to the quota;
  - a word breakdown after repeated low scores.
- **The watch's walkie-talkie screen** (`Walkie`, `walkie.dfy`).
- **The translation client** (`TranslatorService`, `translator_service.dfy`): the request it builds and how it classifies the server's answer.
- **The per-device daily limit** (`Quota`, `quota.dfy`): 150 translations a day.

Shared pieces:

- `Scorer` (`scorer.dfy`): word normalisation, the overlap score and the feedback bands. The two practice screens carry identical copies of this code.
- `Text` (`text.dfy`): character classes, trimming, splitting and searching.
- `Languages` (`languages.dfy`): the language codes.
- `Effects` (`effects.dfy`): the calls made to the recognizer, the synthesizer, the translator and the clipboard.
- `Wrappers` (`wrappers.dfy`): `Option` and `Result`.

**How the screens are modelled.** Each screen is a `class` whose fields are the screen's `@State` variables. Each action is a method with a `modifies` clause. The calls a screen makes to outside services are appended to a ghost `effects` log. A translation's completion handler is a separate method, which the environment calls with the result. The translator screen offers the tap microphone only in auto-response mode and the hold microphone only outside it, so each gesture's method requires its mode.

**Quota and transitions.** The quota is a `DailyLimitManager` object shared by the screens; "today" is passed in as the day string. Most methods are specified by a pure transition function (`Stopped`, `Translation`, `Respond`, `Rebuilt`, …). The lemmas prove the screen's promises about those functions.

**Behaviour of the code worth knowing.**

- Listen & Repeat scores an empty transcript too: it scores 0.
- `?` is a sentence separator for playback.
- Listen & Repeat does not remember which preset translations are on their way, so the same preset can be requested twice.
- The top feedback band of Conversation practice reads "Excellent! That sounded very clear.", while Listen & Repeat reads "Perfect! That’s very clear.".
- Re-translation after a language change is not charged to the quota.
- The Listen & Repeat cache is keyed by phrase index only, so after a change of practice language a phrase already cached is not fetched again.
- The "didn't quite catch the phrase" branch of `handleHowDoYouSay` is unreachable (`Conversation.AskedPhraseIsExtracted`).
- A quick phrase is translated into the "They hear" language (`they`) whatever the direction, and its completion speaks in the `they` language current when it arrives.
- When a translation is followed by a restart, the restart clears the translation just shown. No call site asks for a restart, though: the hold release, the silence stop and paste-and-translate all pass `restartAfterTranslation: false` (ContentView.swift:579-582, 742-745, 1018-1022), so in the app that branch never runs.
- `v1PracticePhrases` is never used: Listen & Repeat receives the current quick-phrase selection (ContentView.swift:770).

## Model

| member | source | states |
|---|---|---|
| Quota.Remaining | LinguaEar/DailyLimitManager.swift:39-43 | never negative; on a valid store it is 150 minus today's (reset) count |
| Quota.Consume | LinguaEar/DailyLimitManager.swift:26-36 | granted exactly when today's remaining quota is positive; a grant adds one to the count and removes one from what remains; a refusal only resets; the store is stamped today and stays in range |
| Quota.ResetStampsToday | LinguaEar/DailyLimitManager.swift:53-65 | the reset stamps today, keeps a store of today unchanged, zeroes any other, and is idempotent |
| Quota.ConsumeAllStaysValid | LinguaEar/DailyLimitManager.swift:26-36 | no sequence of consumes, over any days, takes the count out of 0..150 |
| Quota.GrantedInOneDay | LinguaEar/DailyLimitManager.swift:10-36 | within one day, n requests are granted min(n, remaining) times |
| Quota.DailyLimitManager.constructor | LinguaEar/DailyLimitManager.swift:14-19 | the manager starts from the persisted count and day |
| Quota.DailyLimitManager.ResetIfNewDay | LinguaEar/DailyLimitManager.swift:53-65 | the stored count and day become the reset store |
| Quota.DailyLimitManager.ConsumeOneIfAvailable | LinguaEar/DailyLimitManager.swift:26-36 | the answer and the new stored state are those of `Consume`; the count stays in range |
| Quota.DailyLimitManager.RemainingToday | LinguaEar/DailyLimitManager.swift:39-43 | returns `Remaining` after resetting the store, between 0 and 150 |
| Quota.DailyLimitManager.MaxPerDayLimit | LinguaEar/DailyLimitManager.swift:46-48 | the limit is 150 |
| TranslatorService.Payload | LinguaEar/TranslatorService.swift:92-100 | the JSON body always has the text and the target code, and has "from" exactly when a non-empty source code is given |
| TranslatorService.ConfigError | LinguaEar/TranslatorService.swift:73-90 | no request without a base URL (-1) or with one that does not parse (-3); otherwise no error |
| TranslatorService.RequestFor | LinguaEar/TranslatorService.swift:83-100 | a POST to base URL + "/translate" carrying the payload, exactly when the configuration passes |
| TranslatorService.Classify | LinguaEar/TranslatorService.swift:110-150 | success exactly for a 2xx response whose body decodes with a translated text; otherwise a transport error, -4, -5, or a decode error is passed on; a decoded failure carries the status and the server's message or the fixed apology |
| TranslatorService.Answer | LinguaEar/TranslatorService.swift:66-154 | a configuration error decides the result; otherwise the exchange is classified |
| TranslatorService.Forward | LinguaEar/TranslatorService.swift:43-61 | `translate` keeps a success's text, drops the detected language, and passes a failure on unchanged |
| TranslatorService.BuildRequest | LinguaEar/TranslatorService.swift:92-100 | the request built imperatively equals the POST request with `Payload` |
| TranslatorService.TranslateWithDetection | LinguaEar/TranslatorService.swift:66-154 | sends `RequestFor` (none when the configuration is rejected) and completes once with `Answer` |
| TranslatorService.Translate | LinguaEar/TranslatorService.swift:43-61 | the same request; the completion receives `Forward(Answer(..))` |
| TranslatorService.SuccessIff | LinguaEar/TranslatorService.swift:66-154 | a translation succeeds iff a request went out and a 2xx decodable body with a text came back |
| TranslatorService.FailureCodesTellThePathApart | LinguaEar/TranslatorService.swift:73-150 | with ordinary HTTP statuses, a negative code is one of -1, -3, -4, -5; -1/-3 exactly for configuration errors; any other code is the HTTP status |
| Scorer.Normalize | LinguaEar/ListenRepeatPracticeView.swift:696-700 | `normalize`: the lower-cased text split at every non-alphanumeric character, empty pieces dropped; what its words are is proved in `NormalizeWords`, `NormalizeKeepsAlphanumerics` and `NormalizeEmptyIff` |
| Scorer.NormalizeWords | LinguaEar/ListenRepeatPracticeView.swift:696-700 | every normalised word is non-empty, lower-case and alphanumeric |
| Scorer.NormalizeKeepsAlphanumerics | LinguaEar/ListenRepeatPracticeView.swift:696-700 | run together, the words are the text's alphanumeric characters lower-cased, in order |
| Scorer.NormalizeEmptyIff | LinguaEar/ListenRepeatPracticeView.swift:696-700 | a text has no words iff it has no alphanumeric character |
| Scorer.CountMatches | LinguaEar/ListenRepeatPracticeView.swift:709-714 | the matches never exceed the expected word count |
| Scorer.PercentAtMost100 | LinguaEar/ListenRepeatPracticeView.swift:715-716 | the rounded ratio of matches is at most 100 |
| Scorer.PercentFullIff | LinguaEar/ListenRepeatPracticeView.swift:715-716 | below 200 words, the rounded percentage is 100 iff every word matched |
| Scorer.PercentZeroIff | LinguaEar/ListenRepeatPracticeView.swift:715-716 | up to 200 words, it is 0 iff no word matched |
| Scorer.Score | LinguaEar/ListenRepeatPracticeView.swift:702-717 | the similarity score lies in 0..100 |
| Scorer.SimilarityScore | LinguaEar/ConversationPracticeView.swift:419-434 | the counting loop computes `Score`, between 0 and 100 |
| Scorer.ScoreOfWordless | LinguaEar/ListenRepeatPracticeView.swift:706-707 | a wordless expected phrase or attempt scores 0 |
| Scorer.ScoreDependsOnlyOnWordsHeard | LinguaEar/ListenRepeatPracticeView.swift:709-714 | attempts with the same set of words score the same: order and repetition do not matter |
| Scorer.ScoreFullIff | LinguaEar/ListenRepeatPracticeView.swift:702-717 | below 200 expected words, 100 iff every expected word was heard |
| Scorer.ScoreZeroIff | LinguaEar/ListenRepeatPracticeView.swift:702-717 | up to 200 expected words, 0 iff nothing was heard or no expected word was heard |
| Scorer.ScoreOfSamePhrase | LinguaEar/ListenRepeatPracticeView.swift:702-717 | saying a phrase that has words exactly scores 100 |
| Scorer.TierOf | LinguaEar/ListenRepeatPracticeView.swift:719-732 | the five bands 90...100, 75..<90, 50..<75, 1..<50 and everything else, each both ways |
| Scorer.TierMonotone | LinguaEar/ListenRepeatPracticeView.swift:719-732 | on scores in 0..100, a higher score never lands in a lower band |
| ListenRepeat.FeedbackTellsTiersApart | LinguaEar/ListenRepeatPracticeView.swift:719-732 | two scores get the same feedback line iff they are in the same band |
| ListenRepeat.TrimEachShape | LinguaEar/ListenRepeatPracticeView.swift:643 | trimming each piece keeps one trimmed piece per piece, in place |
| ListenRepeat.TrimKeepsNoSeparator | LinguaEar/ListenRepeatPracticeView.swift:642-643 | trimming a piece with no terminal mark leaves none |
| ListenRepeat.PiecesShape | LinguaEar/ListenRepeatPracticeView.swift:640-644 | every sentence is non-empty, trimmed and free of the marks `.!?。！？` |
| ListenRepeat.Segments | LinguaEar/ListenRepeatPracticeView.swift:631-646 | the queue `rebuildSegments` builds: nothing for a blank target, else the sentences, else the trimmed target alone; its shape is proved in `SegmentsShape` |
| ListenRepeat.SegmentsShape | LinguaEar/ListenRepeatPracticeView.swift:631-646 | the queue is empty iff the target is blank; each segment is non-empty and trimmed; without sentences the one segment is the trimmed target |
| ListenRepeat.ClampIndex | LinguaEar/ListenRepeatPracticeView.swift:647 | the play index lands in range and is unchanged when already in range |
| ListenRepeat.Rebuilt | LinguaEar/ListenRepeatPracticeView.swift:631-648 | after a rebuild the play index is valid for the queue |
| ListenRepeat.RebuiltShape | LinguaEar/ListenRepeatPracticeView.swift:631-648 | a rebuild queues the target's segments; a blank target resets index and paused flag; an index in range stays |
| ListenRepeat.RebuiltCurrent | LinguaEar/ListenRepeatPracticeView.swift:631-648 | a queue already current with its index in range is left alone |
| ListenRepeat.RebuiltIdempotent | LinguaEar/ListenRepeatPracticeView.swift:631-648 | rebuilding twice for the same target is rebuilding once |
| ListenRepeat.RebuildPlayer | LinguaEar/ListenRepeatPracticeView.swift:631-648 | the step-by-step rebuild gives `Rebuilt` |
| ListenRepeat.Target | LinguaEar/ListenRepeatPracticeView.swift:81-93 | `effectiveTarget`: a non-blank custom translation in use, else a non-blank cached translation of the preset, else the English preset; proved in `TargetShape` and `TargetIgnoresOtherEntries` |
| ListenRepeat.TargetShape | LinguaEar/ListenRepeatPracticeView.swift:81-93 | the target is the custom translation, the cached translation or the preset; it is blank only as a blank preset; an unused custom phrase does not affect it |
| ListenRepeat.TargetIgnoresOtherEntries | LinguaEar/ListenRepeatPracticeView.swift:81-93 | caching another preset's translation leaves the target unchanged |
| ListenRepeat.PresetRequest | LinguaEar/ListenRepeatPracticeView.swift:404-418 | the request `translatePresetIfNeeded` sends: none under a custom phrase in use or a non-blank cache entry, else the preset from English into the practice language; proved in `PresetRequestShape` |
| ListenRepeat.PresetRequestShape | LinguaEar/ListenRepeatPracticeView.swift:404-418 | at most one request, sent iff no custom phrase is in use and no non-blank translation is cached, asking English to the practice language |
| ListenRepeat.StoredAtRequestIsFaithful | LinguaEar/ListenRepeatPracticeView.swift:418-425 | filing each result under the index it was requested for keeps every cached translation with its own preset |
| ListenRepeat.StoredAtCompletionMisfiles | LinguaEar/ListenRepeatPracticeView.swift:418-425 | filing under the index current at completion stores the translation of "Hello" under "Thank you" |
| ListenRepeat.ListenRepeatSession.constructor | LinguaEar/ListenRepeatPracticeView.swift:38-68 | phrase 0, idle, nothing cached or queued, normal speed 0.50 |
| ListenRepeat.ListenRepeatSession.EffectiveEnglish | LinguaEar/ListenRepeatPracticeView.swift:72-79 | the custom English text when in use and not blank, else the preset |
| ListenRepeat.ListenRepeatSession.WordTokens | LinguaEar/ListenRepeatPracticeView.swift:103-107 | the chips are non-empty words without whitespace that run together give the target's non-blank characters |
| ListenRepeat.ListenRepeatSession.TranslatePresetIfNeeded | LinguaEar/ListenRepeatPracticeView.swift:404-428 | the calls made are exactly `PresetRequest` |
| ListenRepeat.ListenRepeatSession.OnPresetTranslatedAtCurrentIndex | LinguaEar/ListenRepeatPracticeView.swift:419-425 | the source's completion: a success is filed under the current index, a failure is dropped |
| ListenRepeat.ListenRepeatSession.OnPresetTranslated | LinguaEar/ListenRepeatPracticeView.swift:419-425 | the corrected completion files under the requested index and keeps the cache faithful |
| ListenRepeat.ListenRepeatSession.PlayCurrentPhrase | LinguaEar/ListenRepeatPracticeView.swift:481-493 | speaks the whole target at the chosen rate; the attempt is playing |
| ListenRepeat.ListenRepeatSession.RebuildSegments | LinguaEar/ListenRepeatPracticeView.swift:631-648 | the player becomes `Rebuilt` for the current target |
| ListenRepeat.ListenRepeatSession.PlaySegmentNow | LinguaEar/ListenRepeatPracticeView.swift:497-512 | rebuilds, then speaks the segment at the play index and clears the pause; nothing with an empty queue |
| ListenRepeat.ListenRepeatSession.TransportBack | LinguaEar/ListenRepeatPracticeView.swift:514-519 | one segment back, stopping at the first, and plays it |
| ListenRepeat.ListenRepeatSession.TransportForward | LinguaEar/ListenRepeatPracticeView.swift:521-526 | one segment on, stopping at the last, and plays it |
| ListenRepeat.ListenRepeatSession.TransportPlay | LinguaEar/ListenRepeatPracticeView.swift:528-537 | resumes when paused, otherwise plays the current segment |
| ListenRepeat.ListenRepeatSession.TransportPause | LinguaEar/ListenRepeatPracticeView.swift:539-543 | pauses speech; queue and index stay |
| ListenRepeat.ListenRepeatSession.TransportStop | LinguaEar/ListenRepeatPracticeView.swift:545-549 | stops speech and clears the pause; queue and index stay |
| ListenRepeat.ListenRepeatSession.SpeakWord | LinguaEar/ListenRepeatPracticeView.swift:272-280 | a word chip speaks that word at rate 0.25 |
| ListenRepeat.ListenRepeatSession.SetSpeed | LinguaEar/ListenRepeatPracticeView.swift:303-322 | slow is 0.25, normal 0.50 |
| ListenRepeat.ListenRepeatSession.CopyPracticePhrase | LinguaEar/ListenRepeatPracticeView.swift:622-627 | the trimmed target goes to the clipboard; a blank one copies nothing |
| ListenRepeat.ListenRepeatSession.StartListening | LinguaEar/ListenRepeatPracticeView.swift:560-575 | a new attempt with the last result cleared; the recognizer is stopped, reset and started in the practice locale |
| ListenRepeat.ListenRepeatSession.StopListeningAndScore | LinguaEar/ListenRepeatPracticeView.swift:577-596 | the trimmed transcript is scored against the target and the status shows the score and its feedback |
| ListenRepeat.ListenRepeatSession.ToggleListening | LinguaEar/ListenRepeatPracticeView.swift:551-558 | scores while listening, otherwise starts an attempt |
| ListenRepeat.ListenRepeatSession.TypeCustomPhrase | LinguaEar/ListenRepeatPracticeView.swift:178 | the text field edits the custom English text only |
| ListenRepeat.ListenRepeatSession.ResetForNewPhrase | LinguaEar/ListenRepeatPracticeView.swift:471-477 | a fresh idle attempt at zero |
| ListenRepeat.ListenRepeatSession.ApplyCustomPhrase | LinguaEar/ListenRepeatPracticeView.swift:432-441 | a blank text does nothing; otherwise the trimmed text is sent from English to the practice language |
| ListenRepeat.ListenRepeatSession.OnCustomTranslated | LinguaEar/ListenRepeatPracticeView.swift:442-457 | a success becomes the custom target with a fresh attempt and a rebuilt queue; a failure reports the error |
| ListenRepeat.ListenRepeatSession.ClearCustomPhrase | LinguaEar/ListenRepeatPracticeView.swift:461-469 | back to the preset with a fresh attempt, its translation requested if needed and the queue rebuilt |
| ListenRepeat.ListenRepeatSession.GoToNextPhrase | LinguaEar/ListenRepeatPracticeView.swift:598-620 | the next preset, wrapping round, with everything stopped and a fresh attempt |
| ListenRepeat.ListenRepeatSession.OnAppear | LinguaEar/ListenRepeatPracticeView.swift:134-138 | normal speed, the preset translation requested if needed, the queue built |
| ListenRepeat.ListenRepeatSession.OnCurrentIndexChanged | LinguaEar/ListenRepeatPracticeView.swift:139-142 | the new preset's translation requested if needed, the queue rebuilt |
| ListenRepeat.ListenRepeatSession.OnPracticeLanguageChanged | LinguaEar/ListenRepeatPracticeView.swift:143-146 | requests only for a preset not yet cached, in the new language |
| ListenRepeat.ListenRepeatSession.OnDisappear | LinguaEar/ListenRepeatPracticeView.swift:147-152 | the recognizer and speech are stopped |
| Conversation.FeedbackTellsTiersApart | LinguaEar/ConversationPracticeView.swift:436-449 | below the top band the lines match Listen & Repeat's; two scores share a line iff they share a band |
| Conversation.BreakdownWords | LinguaEar/ConversationPracticeView.swift:451-453 | the breakdown is the phrase's lower-case alphanumeric words, empty iff it has none |
| Conversation.Posted | LinguaEar/ConversationPracticeView.swift:244-246 | each reply becomes one partner message, in order |
| Conversation.CutShape | LinguaEar/ConversationPracticeView.swift:281-283 | the part cut before the first match of a pattern (the source's "in spanish") is a piece of the text holding no match of it |
| Conversation.QuoteStripShape | LinguaEar/ConversationPracticeView.swift:286 | stripping quotes leaves a piece with no quote at either end that still holds no match of the cut pattern |
| Conversation.PhraseAfterShape | LinguaEar/ConversationPracticeView.swift:278-286 | the extracted phrase is quote-trimmed, free of "in spanish" and lies after the start |
| Conversation.RequestedPhrase | LinguaEar/ConversationPracticeView.swift:270-288 | the phrase `handleHowDoYouSay` extracts after the first "how do you say", cut before "in spanish", trimmed and stripped of quotes; none when the key phrase is absent; proved in `RequestedPhraseShape` and `PhraseAfterShape` |
| Conversation.RequestedPhraseShape | LinguaEar/ConversationPracticeView.swift:270-288 | a phrase is extracted iff the lower-cased text contains "how do you say", and it lies after the first occurrence |
| Conversation.RouteOf | LinguaEar/ConversationPracticeView.swift:250-267 | "how do you say" wins; otherwise an attempt when there is a phrase, else small talk |
| Conversation.AskedPhraseIsExtracted | LinguaEar/ConversationPracticeView.swift:269-275 | an utterance routed to a phrase request always yields a phrase |
| Conversation.AfterScoring | LinguaEar/ConversationPracticeView.swift:396-410 | one attempt on the practice fields: the count grows by one, the score and feedback are the attempt's, and the breakdown turns on from the third attempt under 80; runs of attempts are proved in `AfterAttemptsShape` |
| Conversation.AfterAttemptsShape | LinguaEar/ConversationPracticeView.swift:396-410 | over a run of attempts the count grows by its length, the last score is kept, and the breakdown shows iff it did or some third-or-later attempt scored under 80 |
| Conversation.BreakdownNeedsThreeAttempts | LinguaEar/ConversationPracticeView.swift:407-409 | a new phrase needs three attempts before the breakdown; a third under 80 shows it |
| Conversation.Charged | LinguaEar/ConversationPracticeView.swift:343-360 | one charged translation, as in `handleGenericConversation` and the end of `handleHowDoYouSay`: a refusal answers with one apology and the limit status, a grant sends one request from the native into the practice language; proved in `ChargedAnswersOnce`, `ChargedKeepsPractice` and `RespondChargesBeforeTranslating` |
| Conversation.Ask | LinguaEar/ConversationPracticeView.swift:269-307 | `handleHowDoYouSay`: no phrase or an empty one is reported and not charged, otherwise the phrase is charged and translated; proved in `AskAnswersOnce`, `AskKeepsPractice` and `RequestedText` |
| Conversation.Attempted | LinguaEar/ConversationPracticeView.swift:396-410 | `scorePronunciation`: the attempt is scored, reported in the status line and answered by one partner message, with no request and the quota untouched |
| Conversation.ChargedAnswersOnce | LinguaEar/ConversationPracticeView.swift:294-307 | a charge answers with at most one reply and at most one translation request |
| Conversation.AskAnswersOnce | LinguaEar/ConversationPracticeView.swift:269-307 | the same for a phrase request |
| Conversation.Respond | LinguaEar/ConversationPracticeView.swift:250-267 | `handleUserUtterance`: dispatches by `RouteOf` to `Ask`, `Attempted` or a charged small-talk reply; proved in `RespondAnswersOnce`, `RespondChargesBeforeTranslating` and `RespondKeepsPractice` |
| Conversation.RespondAnswersOnce | LinguaEar/ConversationPracticeView.swift:250-267 | handling any utterance answers with at most one partner message and one translation |
| Conversation.RespondChargesBeforeTranslating | LinguaEar/ConversationPracticeView.swift:294-300 | a charged utterance moves the quota as `Consume` does; a refusal answers with the apology and "limit reached"; an uncharged one leaves the quota alone |
| Conversation.ChargedKeepsPractice | LinguaEar/ConversationPracticeView.swift:343-360 | charging leaves the practice fields alone and keeps the quota in range |
| Conversation.AskKeepsPractice | LinguaEar/ConversationPracticeView.swift:269-307 | a phrase request leaves the practice fields alone and keeps the quota in range |
| Conversation.RespondKeepsPractice | LinguaEar/ConversationPracticeView.swift:250-267 | only an attempt touches the practice fields; the quota and practice fields stay in range |
| Conversation.RequestedText | LinguaEar/ConversationPracticeView.swift:302-306 | a granted request translates the extracted phrase, or in small talk the whole utterance |
| Conversation.ConversationSession.constructor | LinguaEar/ConversationPracticeView.swift:40-54 | no messages, not listening, no phrase, speed 0.9 |
| Conversation.ConversationSession.SetSpeed | LinguaEar/ConversationPracticeView.swift:150-160 | slow is 0.45, normal 0.9 |
| Conversation.ConversationSession.AddMessage | LinguaEar/ConversationPracticeView.swift:244-246 | one message appended, the earlier ones kept |
| Conversation.ConversationSession.StartListening | LinguaEar/ConversationPracticeView.swift:216-225 | the last score and feedback cleared; the recognizer starts in the native locale |
| Conversation.ConversationSession.ScorePronunciation | LinguaEar/ConversationPracticeView.swift:396-410 | the state after an attempt is `Attempted` |
| Conversation.ConversationSession.ChargeAndTranslate | LinguaEar/ConversationPracticeView.swift:294-307 | calls and quota as `Charged` says |
| Conversation.ConversationSession.HandleHowDoYouSay | LinguaEar/ConversationPracticeView.swift:269-307 | calls and quota as `Ask` says |
| Conversation.ConversationSession.HandleGenericConversation | LinguaEar/ConversationPracticeView.swift:343-360 | calls and quota as `Charged` with the "thinking" status says |
| Conversation.ConversationSession.HandleUserUtterance | LinguaEar/ConversationPracticeView.swift:250-267 | calls, quota and practice as `Respond` says |
| Conversation.ConversationSession.StopListeningAndHandle | LinguaEar/ConversationPracticeView.swift:227-242 | a blank transcript is only reported; otherwise it is posted trimmed and handled |
| Conversation.ConversationSession.ToggleListening | LinguaEar/ConversationPracticeView.swift:208-214 | the mic button starts listening, or stops and handles the transcript |
| Conversation.ConversationSession.OnPhraseTranslated | LinguaEar/ConversationPracticeView.swift:309-339 | a success becomes the phrase, is posted and spoken in the practice language; a failure posts the trouble message |
| Conversation.ConversationSession.OnSmallTalkTranslated | LinguaEar/ConversationPracticeView.swift:361-390 | a success is suggested, becomes the phrase and is spoken; a failure posts "I couldn’t quite handle that" with the error |
| MainScreen.QuickPhrases | LinguaEar/ContentView.swift:793-799 | the quick-phrase list on show and the list handed to Listen & Repeat (`quickPhrases` at 293-299 and `v1SelectedPhrasesForPractice` compute the same): the subcategory's list under Travel, otherwise the category's list, empty when missing; proved in `AppSelectionsNonEmpty` and `PracticeListIsEverySelection` |
| MainScreen.PracticeList | LinguaEar/ContentView.swift:266-291 | the full practice list `v1PracticePhrases`, which nothing in the app uses: basic, the ten travel lists in `allCases` order, salon, conversation; `V1PracticePhrases` is proved equal to it and `PracticeListIsEverySelection` describes what it holds |
| MainScreen.V1PracticePhrases | LinguaEar/ContentView.swift:266-291 | the list built one list at a time is basic, the travel lists in order, salon, conversation |
| MainScreen.TravelListsSpelledOut | LinguaEar/ContentView.swift:270-286 | the travel part is the ten subcategory lists in declaration order |
| MainScreen.TravelListsHold | LinguaEar/ContentView.swift:270-286 | a phrase is in the travel part iff one of the subcategory lists holds it |
| MainScreen.PracticeListIsEverySelection | LinguaEar/ContentView.swift:266-299 | the full practice list holds exactly the phrases some quick-phrase selection shows |
| MainScreen.IndexOfSubcategory | LinguaEar/ContentView.swift:76-86 | every subcategory has its place in the declaration order |
| MainScreen.AppPracticeListLength | LinguaEar/ContentView.swift:89-210 | with the shipped tables the full practice list `v1PracticePhrases` holds 79 phrases |
| MainScreen.AppSelectionsNonEmpty | LinguaEar/ContentView.swift:89-210 | with the shipped tables every selection has at least four phrases |
| MainScreen.RecognitionLocale | LinguaEar/ContentView.swift:804-822 | the recognizer listens in the speaker's locale |
| MainScreen.FromCode | LinguaEar/ContentView.swift:871-900 | no source code under auto-detect, else the speaker's |
| MainScreen.ToCode | LinguaEar/ContentView.swift:871-900 | the target code is always the listener's |
| MainScreen.PlayTtsCode | LinguaEar/ContentView.swift:245-252 | the voice is always the listener's |
| MainScreen.ReversingDirectionSwapsCodes | LinguaEar/ContentView.swift:871-900 | reversing the direction exchanges the source and target codes |
| MainScreen.Swapped | LinguaEar/ContentView.swift:984-988 | the two languages change places |
| MainScreen.SwapTwiceRestores | LinguaEar/ContentView.swift:984-988 | swapping twice restores; swapping exchanges speaker and listener |
| MainScreen.ListeningStarted | LinguaEar/ContentView.swift:804-822 | listening, with the heard and translated text cleared |
| MainScreen.Transcript | LinguaEar/ContentView.swift:834-844 | the text `stopListeningOnce` keeps: the trimmed recognizer text, or the trimmed heard phrase when that is blank; proved in `TranscriptShape` |
| MainScreen.TranscriptShape | LinguaEar/ContentView.swift:825-857 | the recognizer's text wins unless blank; the result is trimmed and empty iff both are blank |
| MainScreen.Translation | LinguaEar/ContentView.swift:860-905 | `performTranslation`: charge one translation; a refusal raises the alert, a grant requests the text in the direction's codes and awaits a reply spoken in the listener's voice; proved in `TranslationChargesFirst` |
| MainScreen.TranslationChargesFirst | LinguaEar/ContentView.swift:860-900 | a request is made iff the quota grants it; a refusal raises the alert |
| MainScreen.Stopped | LinguaEar/ContentView.swift:825-857 | `stopListeningOnce`: nothing unless listening; else stop the recognizer, keep the transcript, report "No speech detected" when it is blank, else translate it; proved in `StopIsIdempotent`, `BlankSpeechIsNotTranslated` and `SpeechIsTranslatedWhenGranted` |
| MainScreen.StopIsIdempotent | LinguaEar/ContentView.swift:825-830 | after a stop the screen is not listening, and a second stop changes nothing |
| MainScreen.BlankSpeechIsNotTranslated | LinguaEar/ContentView.swift:840-846 | a blank transcript is not charged; "No speech detected" |
| MainScreen.SpeechIsTranslatedWhenGranted | LinguaEar/ContentView.swift:825-900 | otherwise the trimmed text is sent in the direction's codes exactly when the quota grants it |
| MainScreen.Retranslation | LinguaEar/ContentView.swift:936-982 | `handleLanguageChangeReTranslation`: the trimmed heard phrase re-requested in the direction's codes, uncharged; nothing for a blank phrase; proved in `RetranslationShape` |
| MainScreen.RetranslationShape | LinguaEar/ContentView.swift:936-982 | a re-translation happens iff the heard phrase is not blank, is uncharged, and is shown without speaking |
| MainScreen.QuickPhrasePlayedAsWritten | LinguaEar/ContentView.swift:1037-1056 | `playQuickPhrase` as written: nothing for an empty list, then the charge, then `phrases[selectedPhraseIndex]`, whose range demand is its precondition; `StaleIndexTraps` shows that demand broken |
| MainScreen.StaleIndexTraps | LinguaEar/ContentView.swift:1037-1048 | index 8, valid in Basic, is out of range for Conversation when the charge is granted |
| MainScreen.QuickPhrasePlayed | LinguaEar/ContentView.swift:1037-1056 | `playQuickPhrase` with the index checked before the charge; proved in `QuickPhraseCheckAgrees` and `QuickPhraseShape` |
| MainScreen.QuickPhraseCheckAgrees | LinguaEar/ContentView.swift:1037-1077 | the checked playback equals the source's on every input where the source does not trap |
| MainScreen.QuickPhraseShape | LinguaEar/ContentView.swift:1037-1077 | charged only for an index in range; a grant shows and translates the phrase from English into the "They hear" language (`they`), whatever the direction; a refusal raises the alert |
| MainScreen.TranslatorScreen.constructor | LinguaEar/ContentView.swift:19-60 | English to Spanish, you speaking, both toggles off, idle |
| MainScreen.TranslatorScreen.SwapLanguages | LinguaEar/ContentView.swift:984-988 | only the languages change places, and when they differ the new "They hear" language (`they`) re-translates the heard phrase as `Retranslation` says (the `onChange` at 754-756) |
| MainScreen.TranslatorScreen.PlayTranslation | LinguaEar/ContentView.swift:503-510 | the Play button speaks the translation on show in `PlayTtsCode`, the listener's voice for the direction, and changes nothing else |
| MainScreen.TranslatorScreen.SelectYouLanguage | LinguaEar/ContentView.swift:350-359 | the "You speak" picker changes only the "You speak" language (`you`) |
| MainScreen.TranslatorScreen.SelectTheyLanguage | LinguaEar/ContentView.swift:329-338 | the "They hear" picker changes only the "They hear" language (`they`), and a change re-translates, whatever the direction, the heard phrase as `Retranslation` says (the `onChange` at 754-756) |
| MainScreen.TranslatorScreen.SetDirection | LinguaEar/ContentView.swift:380-411 | the direction buttons change only the direction |
| MainScreen.TranslatorScreen.SetAutoDetect | LinguaEar/ContentView.swift:364-369 | the auto-detect toggle changes only that setting |
| MainScreen.TranslatorScreen.SetAutoResponse | LinguaEar/ContentView.swift:372-377 | the auto-response toggle changes only that setting |
| MainScreen.TranslatorScreen.StartListeningOnce | LinguaEar/ContentView.swift:804-822 | cancels the silence stop, clears the texts, starts the recognizer in the speaker's locale |
| MainScreen.TranslatorScreen.PerformTranslation | LinguaEar/ContentView.swift:860-933 | the state, calls and quota are those of `Translation` |
| MainScreen.TranslatorScreen.StopListeningOnce | LinguaEar/ContentView.swift:825-857 | the state, calls and quota are those of `Stopped` |
| MainScreen.TranslatorScreen.HandleLanguageChangeReTranslation | LinguaEar/ContentView.swift:936-982 | the state and calls are those of `Retranslation` |
| MainScreen.TranslatorScreen.HandleAutoResponseTap | LinguaEar/ContentView.swift:992-1000 | offered only in auto-response mode (535-552); ignored while listening, otherwise starts an auto-response session |
| MainScreen.TranslatorScreen.PressMic | LinguaEar/ContentView.swift:569-576 | offered only outside auto-response mode; listening starts once per press, with the hold tip shown |
| MainScreen.TranslatorScreen.ReleaseMic | LinguaEar/ContentView.swift:577-584 | offered only outside auto-response mode; listening stops once per release, translating and speaking as `Stopped` says; only the press flag and, when it stopped, the pending silence stop change in the microphone state |
| MainScreen.TranslatorScreen.OnHoldTipElapsed | LinguaEar/ContentView.swift:779-790 | the hold tip fades |
| MainScreen.TranslatorScreen.OnTranscriptChanged | LinguaEar/ContentView.swift:729-752 | a live transcript is shown trimmed while listening and re-arms the silence stop in auto-response mode |
| MainScreen.TranslatorScreen.OnSilenceElapsed | LinguaEar/ContentView.swift:740-749 | a cancelled stop does nothing; otherwise it stops and speaks while still listening in auto-response mode |
| MainScreen.TranslatorScreen.SelectCategory | LinguaEar/ContentView.swift:665-670 | only the category changes; the phrase index is kept |
| MainScreen.TranslatorScreen.SelectSubcategory | LinguaEar/ContentView.swift:673-680 | only the subcategory changes; the phrase index is kept |
| MainScreen.TranslatorScreen.SelectPhrase | LinguaEar/ContentView.swift:686-704 | the wheel picks an index of the list on show |
| MainScreen.TranslatorScreen.PlayQuickPhrase | LinguaEar/ContentView.swift:1037-1077 | the state, calls and quota are those of `QuickPhrasePlayed` |
| MainScreen.TranslatorScreen.OnTranslationFinished | LinguaEar/ContentView.swift:906-931 | removes the awaited job; a success is shown and spoken as the request fixed, and restarts listening only for a request that asked for it, which no call site in the app does; a failure shows the error |
| Walkie.FirstIndex | LinguaEarWatchV2/WalkieTalkieModeView.swift:126 | the first position holding the name, none iff it is absent |
| Walkie.NextLanguage | LinguaEarWatchV2/WalkieTalkieModeView.swift:124-129 | `nextLanguage(after:)`: the option after the current one, wrapping round, English for a name not listed; proved in `NextLanguageShape` and `FiveStepsReturn` |
| Walkie.NextLanguageShape | LinguaEarWatchV2/WalkieTalkieModeView.swift:124-129 | always one of the five; an unknown name gives English; a listed one gives the next; Turkish wraps to English |
| Walkie.FiveStepsReturn | LinguaEarWatchV2/WalkieTalkieModeView.swift:124-129 | five presses of a language button return to the start |
| Walkie.WalkieScreen.constructor | LinguaEarWatchV2/WalkieTalkieModeView.swift:13-19 | English to Spanish, nothing shown, not listening |
| Walkie.WalkieScreen.TapMic | LinguaEarWatchV2/WalkieTalkieModeView.swift:63-75 | toggles listening; starting clears both texts, stopping shows the sample exchange |
| Walkie.WalkieScreen.CycleYouLanguage | LinguaEarWatchV2/WalkieTalkieModeView.swift:104-107 | the "you" language moves to the next |
| Walkie.WalkieScreen.CycleThemLanguage | LinguaEarWatchV2/WalkieTalkieModeView.swift:111-113 | the "them" language moves to the next |

## Left out

- Speech recognition, speech synthesis, audio sessions and recording (`startRecording`, `stopRecording`, `recordingURL`): recognition is an input, the transcript passed to the method that stops listening. Synthesis, pausing, resuming and stopping are recorded as calls in the effects log.
- The network and JSON coding: the server's answer is an input (`Exchange`) giving the transport error, the HTTP status and the decoded body. The HTTP headers and the exact JSON text are not modelled.
- `UserDefaults` and the clock: the quota store is an object built from the persisted count and day. "Today" is the formatted day string, passed in. `dayString` is not modelled.
- Timers: the hold tip's fade and the auto-response silence stop are methods the environment calls when the timer fires. A newer silence timer replacing an older one is a flag, not a task handle.
- Concurrency and the main queue: each completion handler is a method that runs on its own, in any order the environment chooses.
- The clipboard: in the translator screen, paste-and-translate and copy are not modelled. Listen & Repeat's copy is modelled as a clipboard call.
- `directionSummary`, `playLanguageName`, the mic label and other labels, colours and layout: they are display only.
- `useSpeaker`: it only chooses the audio route.
- Message identifiers (`UUID`): they serve display only.
- Floating-point speeds: they are written in hundredths.
- The Double arithmetic of `similarityScore`: the model rounds the exact ratio half away from zero, so its score can be one point above the source's. For 23 of 40 words it gives 58 where the source gives 57, because 0.575 × 100 is 57.49999999999999 in Double. Up to 1000 expected words this happens for 40 (matches, words) pairs, four distinct ratios, each with a score of 15, 29, 57 or 58 against the source's 14, 28, 56 or 57, so neither the feedback band nor the breakdown threshold of 80 changes.
- Unicode: letters, digits, whitespace and lower-casing are approximated by ASCII and Latin-1 classes, and lower-casing keeps the length.
- `WelcomeView`, the watch's peer-to-peer walkie files and `WalkieState`: they are outside this model.
- Scorer.ScoreFullIff: this is stated for phrases of fewer than 200 words only, because beyond that the source's rounding reaches 100 with one word missing.
- Scorer.ScoreZeroIff: this is stated for phrases of at most 200 words only, for the same reason.

## Findings

| source | as written | input that shows it | evidently intended | confidence | as-written member | corrected member |
|---|---|---|---|---|---|---|
| LinguaEar/ListenRepeatPracticeView.swift:418-425 | a preset translation is filed under `currentIndex` read when the answer arrives | presets "Hello" and "Thank you": the request for phrase 0 is sent on appearing and answered after "Next phrase", so the translation of "Hello" is filed under phrase 1 | file the translation under the index the request was made for | not executed | ListenRepeat.ListenRepeatSession.OnPresetTranslatedAtCurrentIndex, ListenRepeat.StoredAtCompletionMisfiles | ListenRepeat.ListenRepeatSession.OnPresetTranslated, ListenRepeat.StoredAtRequestIsFaithful |
| LinguaEar/ContentView.swift:1037-1048 | `playQuickPhrase` charges the quota and then reads `phrases[selectedPhraseIndex]`; the index survives a change of category | select the ninth Basic phrase (index 8), switch the category to Conversation (4 phrases), tap play with quota left: one translation is charged, then the index is out of range | check the index before charging, or reset it when the list changes | not executed | MainScreen.QuickPhrasePlayedAsWritten, MainScreen.StaleIndexTraps | MainScreen.QuickPhrasePlayed, MainScreen.QuickPhraseCheckAgrees, MainScreen.QuickPhraseShape |
