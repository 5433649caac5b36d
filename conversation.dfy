/**
 * The Conversation practice screen: the learner speaks; a request "how do you
 * say …" is translated into the practice language and becomes the phrase to
 * repeat; anything else is scored against that phrase, or, when there is none
 * yet, translated as small talk whose translation becomes the phrase. Every
 * translation is charged to the daily quota. After three or more attempts with
 * a score under 80 the phrase's word breakdown is shown.
 */
module Conversation {
  import opened Wrappers
  import opened Text
  import opened Scorer
  import opened Languages
  import opened Effects
  import opened Quota
  import ListenRepeat
  import TranslatorService

  datatype Speaker = You | Partner


  // ---------------------------------------------------------------------------
  // Feedback

  const ExcellentLine := "Excellent! That sounded very clear."

  /**
   * `feedback(for:expected:)` of this screen: the top band has its own line,
   * the four other bands read as on the Listen & Repeat screen.
   */
  function Feedback(score: int, expected: string): string {
    if TierOf(score) == Excellent then ExcellentLine else ListenRepeat.TierText(TierOf(score), expected)
  }

  /**
   * The two screens agree below the top band, and this screen's lines, too,
   * tell the five bands apart.
   */
  lemma FeedbackTellsTiersApart(s1: int, s2: int, expected: string)
    ensures TierOf(s1) != Excellent ==> Feedback(s1, expected) == ListenRepeat.Feedback(s1, expected)
    ensures Feedback(s1, expected) == Feedback(s2, expected) <==> TierOf(s1) == TierOf(s2)
  {
    var t1, t2 := TierOf(s1), TierOf(s2);
    if t1 != t2 {
      assert |ExcellentLine| == 35;
      assert |ListenRepeat.VeryGoodLine| == 51 && |ListenRepeat.PrettyCloseLine| == 63 && |ListenRepeat.NotQuiteLine| == 49;
      assert |ListenRepeat.NoMatchOpening| == 33 && |ListenRepeat.NoMatchClosing| == 19;
      var m := ListenRepeat.TierText(NoMatch, expected);
      assert m[0] == ListenRepeat.NoMatchOpening[0] == 'I';
      assert ListenRepeat.PrettyCloseLine[0] == 'P';
      if t1 != Excellent && t2 != Excellent {
        ListenRepeat.FeedbackTellsTiersApart(s1, s2, expected);
      }
    }
  }

  /** `breakdownWords`: the words of the phrase as the scorer sees them. */
  function BreakdownWords(phrase: string): (r: seq<string>)
    ensures forall i :: 0 <= i < |r| ==> r[i] != [] && IsLowerAlphanumeric(r[i])
    ensures Concat(r) == Kept(Lower(phrase), NonAlphanumeric)
    ensures r == [] <==> !HasAlphanumeric(phrase)
  {
    NormalizeWords(phrase);
    NormalizeKeepsAlphanumerics(phrase);
    NormalizeEmptyIff(phrase);
    Normalize(phrase)
  }

  // ---------------------------------------------------------------------------
  // Messages and status lines

  /** The lines the screen shows under the conversation, one per situation. */
  datatype Status =
    | TapMic | SpeakNow | NothingCaught | NoPhrase | TellPhrase | LimitReached
    | TranslatingPhrase | ListenThenRepeat | TranslationFailed | RepeatIfYouLike | Failed
    | Thinking(language: Language)
    | ScoredAttempt(score: nat, feedback: string)

  function StatusText(s: Status): string {
    match s
    case TapMic => "Tap the mic and start speaking."
    case SpeakNow => "Speak now…"
    case NothingCaught => "I didn’t catch anything. Try again."
    case NoPhrase => "I’ll try, but I didn’t quite catch the phrase."
    case TellPhrase => "Tell me the phrase you want to learn, for example: "
                       + "“How do you say ‘Where is the bathroom?’ in Spanish?”"
    case LimitReached => "Daily translation limit reached for this device."
    case TranslatingPhrase => "Translating your phrase…"
    case ListenThenRepeat => "Listen carefully and then repeat."
    case TranslationFailed => "Translation error."
    case RepeatIfYouLike => "Repeat the phrase if you like."
    case Failed => "Error."
    case Thinking(language) => "Thinking in " + DisplayName(language) + "…"
    case ScoredAttempt(score, feedback) => ListenRepeat.ScoreStatus(score, feedback)
  }

  /** What the partner says. */
  datatype Reply =
    | Apology
    | Taught(language: Language, translated: string)
    | Suggested(translated: string)
    | Trouble(description: string)
    | CouldNotHandle(description: string)
    | Heard(actual: string, score: nat, feedback: string)

  function ReplyText(r: Reply): string {
    match r
    case Apology => "Lo siento, has alcanzado el límite diario de traducciones en este dispositivo."
    case Taught(language, translated) =>
      "In " + DisplayName(language) + ", you can say:\n“" + translated + "”\n\nTry repeating it now."
    case Suggested(translated) => "I might say:\n“" + translated + "”\n\nTry saying that back to me."
    case Trouble(description) => "I had trouble translating that: " + description
    case CouldNotHandle(description) => "I couldn’t quite handle that: " + description
    case Heard(actual, score, feedback) => "I heard: “" + actual + "”\n" + ListenRepeat.ScoreStatus(score, feedback)
  }

  /**
   * A chat bubble: what the learner said, or what the partner replied, shown
   * as `Text()` (the source also gives each one a fresh identifier for display).
   */
  datatype Message = FromYou(said: string) | FromPartner(reply: Reply)
  {
    function Speaker(): Speaker {
      if FromYou? then You else Partner
    }

    function Text(): string {
      match this
      case FromYou(said) => said
      case FromPartner(reply) => ReplyText(reply)
    }
  }

  /** The partner's replies as chat bubbles. */
  function Posted(rs: seq<Reply>): (r: seq<Message>)
    ensures |r| == |rs|
    ensures forall i :: 0 <= i < |rs| ==> r[i] == FromPartner(rs[i]) && r[i].Speaker() == Partner
  {
    if rs == [] then [] else [FromPartner(rs[0])] + Posted(rs[1..])
  }

  // ---------------------------------------------------------------------------
  // "How do you say …"

  const HowDoYouSay := "how do you say"
  const InSpanish := "in spanish"

  lemma LowerLength(s: string)
    ensures |Lower(s)| == |s|
  {
    LowerShape(s);
  }

  /** Lower-casing commutes with taking an infix, since it works character by character. */
  lemma LowerInfix(s: string, a: int, b: int)
    requires 0 <= a <= b <= |s|
    ensures |Lower(s)| == |s| && Lower(s[a..b]) == Lower(s)[a..b]
  {
    LowerShape(s);
    LowerShape(s[a..b]);
  }

  /** A match in an infix is a match in the whole, shifted by the infix's start. */
  lemma OccursShift(whole: string, part: string, a: int, pat: string, p: int)
    requires 0 <= a && a + |part| <= |whole| && part == whole[a..a + |part|] && OccursAt(part, pat, p)
    ensures OccursAt(whole, pat, a + p)
  {
    forall t | 0 <= t < |pat| ensures whole[a + p + t] == pat[t] {
      assert pat[t] == part[p..p + |pat|][t] == part[p + t];
    }
  }

  /** A match in a slice is a match in the whole, shifted by the slice's start. */
  lemma OccursInSlice(whole: string, a: int, b: int, pat: string, p: int)
    requires 0 <= a <= b <= |whole| && OccursAt(whole[a..b], pat, p)
    ensures OccursAt(whole, pat, a + p)
  {
    OccursShift(whole, whole[a..b], a, pat, p);
  }

  /** A match of `pat` in the lower-cased infix starting at `a` is a match in the lower-cased whole at `a + p`. */
  lemma OccursInInfix(s: string, a: int, b: int, pat: string, p: int)
    requires 0 <= a <= b <= |s| && OccursAt(Lower(s[a..b]), pat, p)
    ensures OccursAt(Lower(s), pat, a + p)
  {
    LowerInfix(s, a, b);
    OccursInSlice(Lower(s), a, b, pat, p);
  }

  /** An infix of an infix is an infix. */
  lemma OccursWithin(x: string, y: string, z: string, i: int, k: int)
    requires OccursAt(x, y, i) && OccursAt(y, z, k)
    ensures OccursAt(x, z, i + k)
  {
    OccursShift(x, y, i, z, k);
  }

  /**
   * A piece of `s` lying wholly before the first match of `pat` in the
   * lower-cased `s` holds no match of its own once lower-cased.
   */
  lemma NoMatchBeforeFirst(s: string, pat: string, c: string, a: int)
    requires OccursAt(s, c, a) && |pat| > 0
    requires IndexOf(Lower(s), pat).None? || a + |c| <= IndexOf(Lower(s), pat).value
    ensures !Contains(Lower(c), pat)
  {
    if Contains(Lower(c), pat) {
      var p := IndexOf(Lower(c), pat).value;
      IndexOfShape(Lower(c), pat);
      IndexOfShape(Lower(s), pat);
      LowerLength(c);
      assert c == s[a..a + |c|];
      OccursInInfix(s, a, a + |c|, pat, p);
    }
  }

  /** `trimmingCharacters(in:)` yields a piece of its input. */
  lemma TrimOccurs(s: string, k: TrimSet)
    ensures OccursAt(s, TrimBy(s, k), LeadingCount(s, k))
  {
    TrimByShape(s, k);
  }

  /** The phrase part after cutting before the first occurrence of `pat`, if any, lower-case matching. */
  function CutBefore(part: string, pat: string): string {
    match IndexOf(Lower(part), pat)
    case None => part
    case Some(j) =>
      IndexOfShape(Lower(part), pat);
      LowerLength(part);
      Trim(part[..j])
  }

  /** The phrase part after cutting before the first "in spanish", if any. */
  function CutBeforeInSpanish(part: string): string {
    CutBefore(part, InSpanish)
  }

  /** The cut part is a piece of the part that holds no `pat`. */
  lemma CutShape(part: string, pat: string)
    requires |pat| > 0
    ensures exists k :: OccursAt(part, CutBefore(part, pat), k)
    ensures !Contains(Lower(CutBefore(part, pat)), pat)
  {
    var c := CutBefore(part, pat);
    match IndexOf(Lower(part), pat)
    case None =>
      assert OccursAt(part, c, 0);
      NoMatchBeforeFirst(part, pat, c, 0);
    case Some(j) =>
      IndexOfShape(Lower(part), pat);
      LowerLength(part);
      var head := part[..j];
      TrimOccurs(head, WhitespaceAndNewlines);
      assert OccursAt(part, head, 0);
      OccursWithin(part, head, c, 0, LeadingCount(head, WhitespaceAndNewlines));
      NoMatchBeforeFirst(part, pat, c, LeadingCount(head, WhitespaceAndNewlines));
  }

  /**
   * The extraction in `handleHowDoYouSay`: the text after the first
   * "how do you say" (found in the lower-cased text, taken from the original),
   * trimmed, cut before the first "in spanish" and trimmed again, then
   * stripped of quote marks at both ends. None when the key phrase does not
   * occur.
   */
  function RequestedPhrase(text: string): Option<string> {
    match IndexOf(Lower(text), HowDoYouSay)
    case None => None
    case Some(i) =>
      IndexOfShape(Lower(text), HowDoYouSay);
      LowerLength(text);
      Some(PhraseAfter(text, i + |HowDoYouSay|))
  }

  /** Stripping quote marks keeps a piece of the text and adds no `pat`. */
  lemma QuoteStripShape(c: string, pat: string)
    requires |pat| > 0 && !Contains(Lower(c), pat)
    ensures IsTrimmedBy(TrimBy(c, QuoteMarks), QuoteMarks)
    ensures OccursAt(c, TrimBy(c, QuoteMarks), LeadingCount(c, QuoteMarks))
    ensures !Contains(Lower(TrimBy(c, QuoteMarks)), pat)
  {
    TrimByShape(c, QuoteMarks);
    TrimOccurs(c, QuoteMarks);
    NoMatchBeforeFirst(c, pat, TrimBy(c, QuoteMarks), LeadingCount(c, QuoteMarks));
  }

  /** The phrase extracted from the text after position `start`, cutting before `pat`. */
  function PhraseAfterCut(text: string, start: int, pat: string): string
    requires 0 <= start <= |text|
  {
    TrimBy(CutBefore(Trim(text[start..]), pat), QuoteMarks)
  }

  /** The phrase extracted from the text after position `start`. */
  function PhraseAfter(text: string, start: int): string
    requires 0 <= start <= |text|
  {
    PhraseAfterCut(text, start, InSpanish)
  }

  /** The trimmed text after `start` lies in the text, after `start`. */
  lemma TrimmedRestOccurs(text: string, start: int)
    requires 0 <= start <= |text|
    ensures OccursAt(text, Trim(text[start..]), start + LeadingCount(text[start..], WhitespaceAndNewlines))
  {
    var rest := text[start..];
    assert OccursAt(text, rest, start);
    TrimOccurs(rest, WhitespaceAndNewlines);
    OccursWithin(text, rest, Trim(rest), start, LeadingCount(rest, WhitespaceAndNewlines));
  }

  /** The phrase cut before `pat` is quote-trimmed, holds no `pat`, and lies in the text after `start`. */
  lemma PhraseAfterCutShape(text: string, start: int, pat: string)
    requires 0 <= start <= |text| && |pat| > 0
    ensures var r := PhraseAfterCut(text, start, pat);
      IsTrimmedBy(r, QuoteMarks) && !Contains(Lower(r), pat)
      && exists k :: start <= k && OccursAt(text, r, k)
  {
    var part := Trim(text[start..]);
    var a := start + LeadingCount(text[start..], WhitespaceAndNewlines);
    var c := CutBefore(part, pat);
    var r := TrimBy(c, QuoteMarks);
    CutShape(part, pat);
    var k :| OccursAt(part, c, k);
    QuoteStripShape(c, pat);
    TrimmedRestOccurs(text, start);
    OccursWithin(text, part, c, a, k);
    OccursWithin(text, c, r, a + k, LeadingCount(c, QuoteMarks));
    assert start <= a + k + LeadingCount(c, QuoteMarks);
  }

  /** The phrase after `start` is quote-trimmed, holds no "in spanish", and lies in the text after `start`. */
  lemma PhraseAfterShape(text: string, start: int)
    requires 0 <= start <= |text|
    ensures var r := PhraseAfter(text, start);
      IsTrimmedBy(r, QuoteMarks) && !Contains(Lower(r), InSpanish)
      && exists k :: start <= k && OccursAt(text, r, k)
  {
    PhraseAfterCutShape(text, start, InSpanish);
  }

  /**
   * A phrase is extracted exactly when the lower-cased text holds the key
   * phrase; it carries no quote mark at either end, holds no "in spanish",
   * and is a piece of the text lying after the first "how do you say".
   */
  lemma RequestedPhraseShape(text: string)
    ensures RequestedPhrase(text).Some? <==> Contains(Lower(text), HowDoYouSay)
    ensures RequestedPhrase(text).Some? ==>
      var r := RequestedPhrase(text).value;
      var i := IndexOf(Lower(text), HowDoYouSay).value;
      IsTrimmedBy(r, QuoteMarks) && !Contains(Lower(r), InSpanish)
      && exists k :: i + |HowDoYouSay| <= k && OccursAt(text, r, k)
  {
    match IndexOf(Lower(text), HowDoYouSay)
    case None =>
    case Some(i) =>
      IndexOfShape(Lower(text), HowDoYouSay);
      LowerLength(text);
      PhraseAfterShape(text, i + |HowDoYouSay|);
  }

  // ---------------------------------------------------------------------------
  // Dispatch

  /** Where `handleUserUtterance` sends an utterance. */
  datatype Route = AskPhrase | RepeatPhrase(expected: string) | SmallTalk

  /**
   * A "how do you say" request wins even when a phrase is being practised;
   * otherwise an utterance is an attempt at the current phrase, or small talk
   * when there is none.
   */
  function RouteOf(text: string, expected: Option<string>): (r: Route)
    ensures r == AskPhrase <==> Contains(Lower(text), HowDoYouSay)
    ensures r.RepeatPhrase? <==> !Contains(Lower(text), HowDoYouSay) && expected.Some?
    ensures r.RepeatPhrase? ==> r.expected == expected.value
  {
    if Contains(Lower(text), HowDoYouSay) then AskPhrase
    else if expected.Some? then RepeatPhrase(expected.value)
    else SmallTalk
  }

  /** A request routed to `handleHowDoYouSay` always yields a phrase: its "didn't catch" branch cannot be taken. */
  lemma AskedPhraseIsExtracted(text: string, expected: Option<string>)
    ensures RouteOf(text, expected) == AskPhrase <==> RequestedPhrase(text).Some?
  {
    RequestedPhraseShape(text);
  }

  // ---------------------------------------------------------------------------
  // Practice and scoring

  /**
   * The practice fields: `currentExpectedPhrase`, `attemptsOnCurrentPhrase`,
   * `lastScore`, `lastFeedback`, `showBreakdown`.
   */
  datatype Practice = Practice(expected: Option<string>, attempts: int, lastScore: Option<int>, lastFeedback: string, showBreakdown: bool)

  const NoPractice := Practice(None, 0, None, "", false)

  predicate ValidPractice(p: Practice) {
    0 <= p.attempts && (p.lastScore.Some? ==> 0 <= p.lastScore.value <= 100)
  }

  /** A translation installed as the phrase to repeat: no attempts, no score, no breakdown. */
  function NewPhrase(translated: string): Practice {
    Practice(Some(translated), 0, None, "", false)
  }

  /** `scorePronunciation` on the practice fields: one more attempt, its score and feedback, and the breakdown flag. */
  function AfterScoring(p: Practice, expected: string, actual: string): Practice {
    var s := Score(expected, actual);
    Practice(p.expected, p.attempts + 1, Some(s), Feedback(s, expected), p.showBreakdown || (p.attempts + 1 >= 3 && s < 80))
  }

  /** A run of attempts at the same phrase. */
  function AfterAttempts(p: Practice, expected: string, actuals: seq<string>): Practice
    decreases |actuals|
  {
    if actuals == [] then p else AfterAttempts(AfterScoring(p, expected, actuals[0]), expected, actuals[1..])
  }

  /** An attempt counted as low: the third or a later one, scoring under 80. */
  predicate LowLateAttempt(p: Practice, expected: string, actuals: seq<string>, k: int) {
    0 <= k < |actuals| && p.attempts + k + 1 >= 3 && Score(expected, actuals[k]) < 80
  }

  /**
   * Over a run of attempts the count grows by the run's length, the phrase
   * stays, the last score is the last attempt's, and the breakdown is shown
   * at the end exactly when it was shown before or some attempt from the third
   * on scored under 80: scoring never hides it.
   */
  lemma {:induction false} AfterAttemptsShape(p: Practice, expected: string, actuals: seq<string>)
    decreases |actuals|
    ensures var q := AfterAttempts(p, expected, actuals);
      q.attempts == p.attempts + |actuals| && q.expected == p.expected
      && (actuals != [] ==> q.lastScore == Some(Score(expected, actuals[|actuals| - 1])))
      && (q.showBreakdown <==> p.showBreakdown || exists k :: LowLateAttempt(p, expected, actuals, k))
  {
    if actuals != [] {
      var p1 := AfterScoring(p, expected, actuals[0]);
      var rest := actuals[1..];
      AfterAttemptsShape(p1, expected, rest);
      if rest != [] {
        assert rest[|rest| - 1] == actuals[|actuals| - 1];
      }
      if exists k :: LowLateAttempt(p1, expected, rest, k) {
        var k :| LowLateAttempt(p1, expected, rest, k);
        assert rest[k] == actuals[k + 1];
        assert LowLateAttempt(p, expected, actuals, k + 1);
      }
      if p1.showBreakdown && !p.showBreakdown {
        assert LowLateAttempt(p, expected, actuals, 0);
      }
      if exists k :: LowLateAttempt(p, expected, actuals, k) {
        var k :| LowLateAttempt(p, expected, actuals, k);
        if k > 0 {
          assert rest[k - 1] == actuals[k];
          assert LowLateAttempt(p1, expected, rest, k - 1);
        }
      }
    }
  }

  /** A phrase just installed needs at least three attempts before its breakdown can show. */
  lemma BreakdownNeedsThreeAttempts(translated: string, actuals: seq<string>)
    ensures |actuals| < 3 ==> !AfterAttempts(NewPhrase(translated), translated, actuals).showBreakdown
    ensures |actuals| >= 3 && Score(translated, actuals[2]) < 80 ==> AfterAttempts(NewPhrase(translated), translated, actuals).showBreakdown
  {
    AfterAttemptsShape(NewPhrase(translated), translated, actuals);
    if |actuals| >= 3 && Score(translated, actuals[2]) < 80 {
      assert LowLateAttempt(NewPhrase(translated), translated, actuals, 2);
    }
  }

  // ---------------------------------------------------------------------------
  // Handling an utterance

  /**
   * What handling an utterance does besides appending the learner's message:
   * the practice fields, the status line, the partner messages appended, the
   * translation requests sent and the quota store afterwards.
   */
  datatype Outcome = Outcome(practice: Practice, status: Status, replies: seq<Reply>, requests: seq<Effect>, quota: Store)

  /** The request for a translation from the native into the practice language. */
  function TranslateRequest(text: string, native: Language, target: Language): Effect {
    Translate(text, Some(AzureCode(native)), AzureCode(target))
  }

  /** Charging one translation: refused, one apology in the practice language; granted, the request. */
  function Charged(p: Practice, text: string, status: Status, store: Store, today: string, native: Language, target: Language): Outcome {
    var (granted, next) := Consume(store, today);
    if !granted then Outcome(p, LimitReached, [Apology], [], next)
    else Outcome(p, status, [], [TranslateRequest(text, native, target)], next)
  }

  /** `handleHowDoYouSay`: an empty phrase is neither charged nor translated. */
  function Ask(p: Practice, text: string, store: Store, today: string, native: Language, target: Language): Outcome {
    match RequestedPhrase(text)
    case None => Outcome(p, NoPhrase, [], [], store)
    case Some(phrase) =>
      if phrase == [] then Outcome(p, TellPhrase, [], [], store)
      else Charged(p, phrase, TranslatingPhrase, store, today, native, target)
  }

  /** `scorePronunciation`: the attempt is scored, reported in the status line and answered by the partner. */
  function Attempted(p: Practice, expected: string, actual: string, store: Store): Outcome {
    var s := Score(expected, actual);
    var feedback := Feedback(s, expected);
    Outcome(AfterScoring(p, expected, actual), ScoredAttempt(s, feedback),
            [Heard(actual, s, feedback)], [], store)
  }

  /** `handleUserUtterance`. */
  function Respond(p: Practice, text: string, store: Store, today: string, native: Language, target: Language): Outcome {
    match RouteOf(text, p.expected)
    case AskPhrase => Ask(p, text, store, today, native, target)
    case RepeatPhrase(expected) => Attempted(p, expected, text, store)
    case SmallTalk => Charged(p, text, Thinking(target), store, today, native, target)
  }

  /** At most one reply and at most one request, a translation. */
  predicate AnswersOnce(o: Outcome) {
    |o.replies| <= 1
    && |o.requests| <= 1 && TranslateCount(o.requests) == |o.requests|
  }

  lemma ChargedAnswersOnce(p: Practice, text: string, status: Status, store: Store, today: string, native: Language, target: Language)
    ensures AnswersOnce(Charged(p, text, status, store, today, native, target))
  {
    var o := Charged(p, text, status, store, today, native, target);
    assert o.requests != [] ==> TranslateCount(o.requests) == TranslateCount([]) + 1;
  }

  lemma AskAnswersOnce(p: Practice, text: string, store: Store, today: string, native: Language, target: Language)
    ensures AnswersOnce(Ask(p, text, store, today, native, target))
  {
    var r := RequestedPhrase(text);
    if r.Some? && r.value != [] {
      ChargedAnswersOnce(p, r.value, TranslatingPhrase, store, today, native, target);
    }
  }

  /** Handling an utterance answers with at most one partner message and sends at most one translation request. */
  lemma RespondAnswersOnce(p: Practice, text: string, store: Store, today: string, native: Language, target: Language)
    ensures AnswersOnce(Respond(p, text, store, today, native, target))
  {
    var o := Respond(p, text, store, today, native, target);
    match RouteOf(text, p.expected)
    case AskPhrase =>
      assert o == Ask(p, text, store, today, native, target);
      AskAnswersOnce(p, text, store, today, native, target);
    case RepeatPhrase(expected) =>
      assert o == Attempted(p, expected, text, store);
    case SmallTalk =>
      assert o == Charged(p, text, Thinking(target), store, today, native, target);
      ChargedAnswersOnce(p, text, Thinking(target), store, today, native, target);
  }

  /** Whether an utterance is charged to the quota: small talk, or a phrase request with a phrase in it. */
  predicate Charges(p: Practice, text: string) {
    var route := RouteOf(text, p.expected);
    route == SmallTalk || (route == AskPhrase && RequestedPhrase(text) != Some([]))
  }

  /**
   * A request is sent exactly when the utterance is charged and the quota
   * grants it; a refusal sends none and answers with the apology; an
   * uncharged utterance leaves the quota store as it was.
   */
  lemma RespondChargesBeforeTranslating(p: Practice, text: string, store: Store, today: string, native: Language, target: Language)
    ensures var o := Respond(p, text, store, today, native, target);
      (o.requests != [] <==> Charges(p, text) && Consume(store, today).0)
      && (Charges(p, text) ==> o.quota == Consume(store, today).1)
      && (Charges(p, text) && !Consume(store, today).0 ==> o.replies == [Apology] && o.status == LimitReached)
      && (!Charges(p, text) ==> o.quota == store)
  {
    AskedPhraseIsExtracted(text, p.expected);
  }

  /** Charging and asking leave the practice fields alone and keep the quota store in range. */
  lemma ChargedKeepsPractice(p: Practice, text: string, status: Status, store: Store, today: string, native: Language, target: Language)
    ensures var o := Charged(p, text, status, store, today, native, target);
      o.practice == p && (Quota.Valid(store) ==> Quota.Valid(o.quota))
  {
  }

  lemma AskKeepsPractice(p: Practice, text: string, store: Store, today: string, native: Language, target: Language)
    ensures var o := Ask(p, text, store, today, native, target);
      o.practice == p && (Quota.Valid(store) ==> Quota.Valid(o.quota))
  {
    var r := RequestedPhrase(text);
    if r.Some? && r.value != [] {
      ChargedKeepsPractice(p, r.value, TranslatingPhrase, store, today, native, target);
    }
  }

  /**
   * Only an attempt touches the practice fields; handling keeps the quota
   * store and the practice fields in range.
   */
  lemma RespondKeepsPractice(p: Practice, text: string, store: Store, today: string, native: Language, target: Language)
    ensures var o := Respond(p, text, store, today, native, target);
      (!RouteOf(text, p.expected).RepeatPhrase? ==> o.practice == p)
      && (Quota.Valid(store) ==> Quota.Valid(o.quota)) && (ValidPractice(p) ==> ValidPractice(o.practice))
  {
    var o := Respond(p, text, store, today, native, target);
    match RouteOf(text, p.expected)
    case AskPhrase =>
      assert o == Ask(p, text, store, today, native, target);
      AskKeepsPractice(p, text, store, today, native, target);
    case RepeatPhrase(expected) =>
      assert o == Attempted(p, expected, text, store);
    case SmallTalk =>
      assert o == Charged(p, text, Thinking(target), store, today, native, target);
      ChargedKeepsPractice(p, text, Thinking(target), store, today, native, target);
  }

  /** A granted request translates the extracted phrase, or, in small talk, the whole utterance. */
  lemma RequestedText(p: Practice, text: string, store: Store, today: string, native: Language, target: Language)
    requires Respond(p, text, store, today, native, target).requests != []
    ensures var o := Respond(p, text, store, today, native, target);
      o.requests[0] == TranslateRequest(if RouteOf(text, p.expected) == AskPhrase then RequestedPhrase(text).value else text, native, target)
  {
  }

  // ---------------------------------------------------------------------------
  // The session

  class ConversationSession {
    const nativeLanguage: Language
    const targetLanguage: Language
    /** The device's shared daily quota. */
    const limits: DailyLimitManager

    var messages: seq<Message>
    var isListening: bool
    /** The status line, shown as `StatusText(status)`. */
    var status: Status
    var practice: Practice
    /** The partner's speaking rate in hundredths: 45 slow, 90 normal. */
    var playbackSpeed: nat

    /** The calls made to the recognizer, the synthesizer and the translator, in order. */
    ghost var effects: seq<Effect>

    predicate Valid()
      reads this`practice
    {
      ValidPractice(practice)
    }

    constructor (nativeLanguage: Language, targetLanguage: Language, limits: DailyLimitManager)
      ensures Valid()
      ensures this.nativeLanguage == nativeLanguage && this.targetLanguage == targetLanguage && this.limits == limits
      ensures messages == [] && !isListening && status == TapMic
      ensures practice == NoPractice && playbackSpeed == 90 && effects == []
    {
      this.nativeLanguage := nativeLanguage;
      this.targetLanguage := targetLanguage;
      this.limits := limits;
      messages := [];
      isListening := false;
      status := TapMic;
      practice := NoPractice;
      playbackSpeed := 90;
      effects := [];
    }

    /** The speed buttons: 0.45 slow, 0.9 normal. */
    method SetSpeed(slow: bool)
      modifies this`playbackSpeed
      ensures playbackSpeed == if slow then 45 else 90
    {
      playbackSpeed := if slow then 45 else 90;
    }

    /** `addMessage`: one message at the end; the earlier ones stay. */
    method AddMessage(m: Message)
      modifies this`messages
      ensures messages == old(messages) + [m]
    {
      messages := messages + [m];
    }

    /** `startListening`: clear the last result and start the recognizer in the native language. */
    method StartListening()
      requires Valid()
      modifies this`practice, this`status, this`isListening, this`effects
      ensures Valid()
      ensures practice == old(practice).(lastScore := None, lastFeedback := "")
      ensures status == SpeakNow && isListening
      ensures effects == old(effects) + [StartRecognizer(LocaleIdentifier(nativeLanguage))]
    {
      practice := practice.(lastScore := None, lastFeedback := "");
      status := SpeakNow;
      isListening := true;
      effects := effects + [StartRecognizer(LocaleIdentifier(nativeLanguage))];
    }

    /** `scorePronunciation`, with the counting loop of `similarityScore`. */
    method ScorePronunciation(expected: string, actual: string)
      requires Valid()
      modifies this`practice, this`status, this`messages
      ensures Valid()
      ensures var o := Attempted(old(practice), expected, actual, limits.Stored());
        practice == o.practice && status == o.status && messages == old(messages) + Posted(o.replies)
    {
      practice := practice.(attempts := practice.attempts + 1);
      var score := SimilarityScore(expected, actual);
      var feedback := Feedback(score, expected);
      practice := practice.(lastScore := Some(score), lastFeedback := feedback);
      status := ScoredAttempt(score, feedback);
      AddMessage(FromPartner(Heard(actual, score, feedback)));
      if practice.attempts >= 3 && score < 80 {
        practice := practice.(showBreakdown := true);
      }
    }

    /** The quota charge before a translation: refused, an apology; granted, the request. */
    method ChargeAndTranslate(text: string, pending: Status, today: string)
      modifies this`status, this`messages, this`effects, limits
      ensures var o := Charged(practice, text, pending, old(limits.Stored()), today, nativeLanguage, targetLanguage);
        status == o.status && messages == old(messages) + Posted(o.replies)
        && effects == old(effects) + o.requests && limits.Stored() == o.quota
    {
      var allowed := limits.ConsumeOneIfAvailable(today);
      if !allowed {
        status := LimitReached;
        AddMessage(FromPartner(Apology));
        return;
      }
      status := pending;
      effects := effects + [TranslateRequest(text, nativeLanguage, targetLanguage)];
    }

    /** `handleHowDoYouSay`: extract the phrase, then charge and translate it. */
    method HandleHowDoYouSay(text: string, today: string)
      modifies this`status, this`messages, this`effects, limits
      ensures var o := Ask(practice, text, old(limits.Stored()), today, nativeLanguage, targetLanguage);
        status == o.status && messages == old(messages) + Posted(o.replies)
        && effects == old(effects) + o.requests && limits.Stored() == o.quota
    {
      var phrase := RequestedPhrase(text);
      if phrase.None? {
        status := NoPhrase;
        return;
      }
      if phrase.value == [] {
        status := TellPhrase;
        return;
      }
      ChargeAndTranslate(phrase.value, TranslatingPhrase, today);
    }

    /** `handleGenericConversation`: charge and translate the whole utterance. */
    method HandleGenericConversation(text: string, today: string)
      modifies this`status, this`messages, this`effects, limits
      ensures var o := Charged(practice, text, Thinking(targetLanguage), old(limits.Stored()), today, nativeLanguage, targetLanguage);
        status == o.status && messages == old(messages) + Posted(o.replies)
        && effects == old(effects) + o.requests && limits.Stored() == o.quota
    {
      ChargeAndTranslate(text, Thinking(targetLanguage), today);
    }

    /** `handleUserUtterance`: a phrase request, an attempt or small talk, in that order. */
    method HandleUserUtterance(text: string, today: string)
      requires Valid()
      modifies this`practice, this`status, this`messages, this`effects, limits
      ensures Valid()
      ensures var o := Respond(old(practice), text, old(limits.Stored()), today, nativeLanguage, targetLanguage);
        practice == o.practice && status == o.status && messages == old(messages) + Posted(o.replies)
        && effects == old(effects) + o.requests && limits.Stored() == o.quota
    {
      if Contains(Lower(text), HowDoYouSay) {
        HandleHowDoYouSay(text, today);
        return;
      }
      if practice.expected.Some? {
        ScorePronunciation(practice.expected.value, text);
        return;
      }
      HandleGenericConversation(text, today);
    }

    /**
     * `stopListeningAndHandle`: stop the recognizer and take its transcript,
     * trimmed; a blank one is only reported, anything else is posted as the
     * learner's message and handled.
     */
    method StopListeningAndHandle(transcript: string, today: string)
      requires Valid()
      modifies this`isListening, this`practice, this`status, this`messages, this`effects, limits
      ensures Valid() && !isListening
      ensures IsBlank(transcript) ==>
        status == NothingCaught && practice == old(practice) && messages == old(messages)
        && effects == old(effects) + [StopRecognizer] && limits.Stored() == old(limits.Stored())
      ensures !IsBlank(transcript) ==>
        var o := Respond(old(practice), Trim(transcript), old(limits.Stored()), today, nativeLanguage, targetLanguage);
        practice == o.practice && status == o.status
        && messages == old(messages) + [FromYou(Trim(transcript))] + Posted(o.replies)
        && effects == old(effects) + [StopRecognizer] + o.requests && limits.Stored() == o.quota
    {
      isListening := false;
      effects := effects + [StopRecognizer];
      var raw := Trim(transcript);
      TrimShape(transcript);
      if raw == [] {
        status := NothingCaught;
        return;
      }
      AddMessage(FromYou(raw));
      HandleUserUtterance(raw, today);
    }

    /** `toggleListening`: the mic button. */
    method ToggleListening(transcript: string, today: string)
      requires Valid()
      modifies this`isListening, this`practice, this`status, this`messages, this`effects, limits
      ensures Valid()
      ensures isListening == !old(isListening)
      ensures !old(isListening) ==>
        practice == old(practice).(lastScore := None, lastFeedback := "") && status == SpeakNow
        && messages == old(messages) && limits.Stored() == old(limits.Stored())
        && effects == old(effects) + [StartRecognizer(LocaleIdentifier(nativeLanguage))]
      ensures old(isListening) && !IsBlank(transcript) ==>
        var o := Respond(old(practice), Trim(transcript), old(limits.Stored()), today, nativeLanguage, targetLanguage);
        practice == o.practice && status == o.status
        && messages == old(messages) + [FromYou(Trim(transcript))] + Posted(o.replies)
        && effects == old(effects) + [StopRecognizer] + o.requests && limits.Stored() == o.quota
      ensures old(isListening) && IsBlank(transcript) ==>
        status == NothingCaught && practice == old(practice) && messages == old(messages)
        && effects == old(effects) + [StopRecognizer] && limits.Stored() == old(limits.Stored())
    {
      if isListening {
        StopListeningAndHandle(transcript, today);
      } else {
        StartListening();
      }
    }

    /** The completion of a "how do you say" translation. */
    method OnPhraseTranslated(result: Result<string, TranslatorService.TranslationError>)
      requires Valid()
      modifies this`practice, this`status, this`messages, this`effects
      ensures Valid()
      ensures result.Success? ==>
        practice == NewPhrase(result.value) && status == ListenThenRepeat
        && messages == old(messages) + Posted([Taught(targetLanguage, result.value)])
        && effects == old(effects) + [Speak(result.value, TtsCode(targetLanguage), Rate(playbackSpeed))]
      ensures result.Failure? ==>
        practice == old(practice) && status == TranslationFailed && effects == old(effects)
        && messages == old(messages) + Posted([Trouble(result.error.Description())])
    {
      match result {
        case Success(translated) =>
          practice := NewPhrase(translated);
          AddMessage(FromPartner(Taught(targetLanguage, translated)));
          status := ListenThenRepeat;
          effects := effects + [Speak(translated, TtsCode(targetLanguage), Rate(playbackSpeed))];
        case Failure(error) =>
          AddMessage(FromPartner(Trouble(error.Description())));
          status := TranslationFailed;
      }
    }

    /** The completion of a small-talk translation: the translation becomes the phrase to repeat. */
    method OnSmallTalkTranslated(result: Result<string, TranslatorService.TranslationError>)
      requires Valid()
      modifies this`practice, this`status, this`messages, this`effects
      ensures Valid()
      ensures result.Success? ==>
        practice == NewPhrase(result.value) && status == RepeatIfYouLike
        && messages == old(messages) + Posted([Suggested(result.value)])
        && effects == old(effects) + [Speak(result.value, TtsCode(targetLanguage), Rate(playbackSpeed))]
      ensures result.Failure? ==>
        practice == old(practice) && status == Failed && effects == old(effects)
        && messages == old(messages) + Posted([CouldNotHandle(result.error.Description())])
    {
      match result {
        case Success(translated) =>
          AddMessage(FromPartner(Suggested(translated)));
          status := RepeatIfYouLike;
          practice := NewPhrase(translated);
          effects := effects + [Speak(translated, TtsCode(targetLanguage), Rate(playbackSpeed))];
        case Failure(error) =>
          AddMessage(FromPartner(CouldNotHandle(error.Description())));
          status := Failed;
      }
    }
  }
}
