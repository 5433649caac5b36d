/**
 * The Listen & Repeat practice screen: a list of English preset phrases, each
 * practised in its translation (fetched once per phrase and cached by index)
 * or in a custom phrase the learner types; a player that speaks the target
 * one sentence at a time; and a microphone that scores what was heard against
 * the target.
 */
module ListenRepeat {
  import opened Wrappers
  import opened Text
  import opened Scorer
  import opened Languages
  import opened Effects
  import TranslatorService

  // ---------------------------------------------------------------------------
  // Feedback

  const PerfectLine := "Perfect! That’s very clear."
  const VeryGoodLine := "Very good — just polish the pronunciation a little."
  const PrettyCloseLine := "Pretty close. " + "Listen again and focus on the stressed syllables."
  const NotQuiteLine := "Not quite. Try repeating more slowly and clearly."
  const NoMatchOpening := "I couldn’t really match that to “"
  const NoMatchClosing := "”. Let’s try again."

  /** The feedback line for each tier; the last one quotes the target. */
  function TierText(t: Tier, expected: string): string {
    match t
    case Excellent => PerfectLine
    case Good => VeryGoodLine
    case Fair => PrettyCloseLine
    case Poor => NotQuiteLine
    case NoMatch => NoMatchOpening + expected + NoMatchClosing
  }

  /** `feedback(for:expected:)`. */
  function Feedback(score: int, expected: string): string {
    TierText(TierOf(score), expected)
  }

  /** Two scores get the same feedback exactly when they fall in the same tier. */
  lemma FeedbackTellsTiersApart(s1: int, s2: int, expected: string)
    ensures Feedback(s1, expected) == Feedback(s2, expected) <==> TierOf(s1) == TierOf(s2)
  {
    var t1, t2 := TierOf(s1), TierOf(s2);
    if t1 != t2 {
      // The four fixed lines have different lengths, and the quoting line is
      // longer than all of them but the third, which starts differently.
      assert |PerfectLine| == 27 && |VeryGoodLine| == 51 && |PrettyCloseLine| == 63 && |NotQuiteLine| == 49;
      assert |NoMatchOpening| == 33 && |NoMatchClosing| == 19;
      var m := TierText(NoMatch, expected);
      assert m[0] == NoMatchOpening[0] == 'I';
      assert PrettyCloseLine[0] == 'P';
    }
  }

  const ScorePrefix := "Score: "
  const PercentSeparator := "% — "

  // Status lines
  const TapListenStatus := "Tap Listen to hear the phrase."
  const NextPhraseStatus := "Tap Listen to hear the next phrase."
  const PlayingStatus := "Playing…"
  const PausedStatus := "Paused."
  const StoppedStatus := "Stopped."
  const SpeakNowStatus := "Speak the phrase now…"
  const TranslatingCustomStatus := "Translating custom phrase…"
  const CustomReadyStatus := "Custom phrase ready. Tap Listen to hear it."
  const ErrorPrefix := "Error: "
  const CopiedStatus := "Copied phrase to clipboard."
  const PlayingPhraseStatus := "Listening to the phrase…"

  /** The status line after scoring: the score as a percentage, then the feedback. */
  function ScoreStatus(score: nat, feedback: string): string {
    ScorePrefix + NatToString(score) + PercentSeparator + feedback
  }

  // ---------------------------------------------------------------------------
  // Playback segments

  /** Newlines become spaces before splitting. */
  function SpaceForNewline(s: string): string {
    if s == [] then [] else [if s[0] == '\n' then ' ' else s[0]] + SpaceForNewline(s[1..])
  }

  /** `map { $0.trimmingCharacters(in: .whitespacesAndNewlines) }`. */
  function TrimEach(ps: seq<string>): seq<string> {
    if ps == [] then [] else [Trim(ps[0])] + TrimEach(ps[1..])
  }

  /** Trimming each piece keeps the pieces in place, one trimmed piece per piece. */
  lemma {:induction false} TrimEachShape(ps: seq<string>)
    ensures |TrimEach(ps)| == |ps|
    ensures forall i :: 0 <= i < |ps| ==> TrimEach(ps)[i] == Trim(ps[i])
  {
    if ps != [] {
      TrimEachShape(ps[1..]);
    }
  }

  /** Trimming a piece that holds no separator leaves a piece that holds none. */
  lemma TrimKeepsNoSeparator(p: string, sep: Separator)
    requires HasNoSeparator(p, sep)
    ensures HasNoSeparator(Trim(p), sep)
  {
    var r := Trim(p);
    TrimShape(p);
    forall j | 0 <= j < |r| ensures !IsSeparator(r[j], sep) {
      assert r[j] in r;
      var k :| 0 <= k < |p| && p[k] == r[j];
    }
  }

  /**
   * The sentences of an already trimmed text: the pieces between terminal
   * marks, each trimmed, the empty ones dropped.
   */
  function Pieces(text: string): seq<string> {
    NonEmpty(TrimEach(Components(SpaceForNewline(text), TerminalPunctuation)))
  }

  /** Every sentence is non-empty, trimmed and free of terminal marks. */
  lemma PiecesShape(text: string)
    ensures forall i :: 0 <= i < |Pieces(text)| ==>
      Pieces(text)[i] != [] && IsTrimmedBy(Pieces(text)[i], WhitespaceAndNewlines)
      && HasNoSeparator(Pieces(text)[i], TerminalPunctuation)
  {
    var cs := Components(SpaceForNewline(text), TerminalPunctuation);
    var ts := TrimEach(cs);
    var r := NonEmpty(ts);
    ComponentsShape(SpaceForNewline(text), TerminalPunctuation);
    TrimEachShape(cs);
    NonEmptyShape(ts);
    forall i | 0 <= i < |r|
      ensures IsTrimmedBy(r[i], WhitespaceAndNewlines) && HasNoSeparator(r[i], TerminalPunctuation)
    {
      var k :| 0 <= k < |ts| && ts[k] == r[i];
      TrimShape(cs[k]);
      TrimKeepsNoSeparator(cs[k], TerminalPunctuation);
    }
  }

  /**
   * What `rebuildSegments` queues for a target: nothing for a blank target;
   * otherwise the sentences, or, when no sentence survives the split, the
   * trimmed target as a single segment.
   */
  function Segments(target: string): seq<string> {
    var text := Trim(target);
    if text == [] then []
    else
      var parts := Pieces(text);
      if parts == [] then [text] else parts
  }

  /**
   * The queue is empty exactly for a blank target; every segment is non-empty
   * and trimmed; when some sentence survives the split no segment holds a
   * terminal mark, and otherwise the one segment is the trimmed target.
   */
  lemma SegmentsShape(target: string)
    ensures Segments(target) == [] <==> IsBlank(target)
    ensures forall i :: 0 <= i < |Segments(target)| ==>
      Segments(target)[i] != [] && IsTrimmedBy(Segments(target)[i], WhitespaceAndNewlines)
    ensures !IsBlank(target) && Pieces(Trim(target)) != [] ==>
      forall i :: 0 <= i < |Segments(target)| ==> HasNoSeparator(Segments(target)[i], TerminalPunctuation)
    ensures !IsBlank(target) && Pieces(Trim(target)) == [] ==> Segments(target) == [Trim(target)]
  {
    TrimShape(target);
    PiecesShape(Trim(target));
  }

  /** `min(playIndex, max(0, count - 1))`: into range, and unchanged when already in range. */
  function ClampIndex(i: int, count: int): (r: int)
    requires 0 <= i
    ensures 0 <= r <= i
    ensures r <= count - 1 || r == 0
    ensures i <= count - 1 ==> r == i
  {
    if i <= count - 1 then i else if count - 1 > 0 then count - 1 else 0
  }

  /** The player's three fields: the queued segments, the play index, the paused flag. */
  datatype Player = Player(segments: seq<string>, index: int, paused: bool)

  /** The player after `rebuildSegments` for a target. */
  function Rebuilt(p: Player, target: string): (r: Player)
    requires 0 <= p.index
    ensures 0 <= r.index && (r.index < |r.segments| || (r.segments == [] && r.index == 0))
  {
    var segs := Segments(target);
    if segs == [] then Player([], 0, false)
    else Player(segs, ClampIndex(p.index, |segs|), p.paused)
  }

  /**
   * A rebuild queues the target's segments and brings the play index into
   * range: an index already in range stays, an empty queue resets it to 0 and
   * clears the paused flag, a non-empty one keeps the flag.
   */
  lemma RebuiltShape(p: Player, target: string)
    requires 0 <= p.index
    ensures Rebuilt(p, target).segments == Segments(target)
    ensures Segments(target) == [] ==> Rebuilt(p, target) == Player([], 0, false)
    ensures Segments(target) != [] ==>
      Rebuilt(p, target).paused == p.paused && Rebuilt(p, target).index <= |Segments(target)| - 1
    ensures p.index < |Segments(target)| ==> Rebuilt(p, target).index == p.index
  {
  }

  /** A queue already holding the target's segments, with the index in range, is left as it is. */
  lemma RebuiltCurrent(p: Player, target: string)
    requires p.segments == Segments(target) && 0 <= p.index < |p.segments|
    ensures Rebuilt(p, target) == p
  {
  }

  /** Rebuilding twice for the same target is rebuilding once. */
  lemma RebuiltIdempotent(p: Player, target: string)
    requires 0 <= p.index
    ensures Rebuilt(Rebuilt(p, target), target) == Rebuilt(p, target)
  {
  }

  /**
   * The steps of `rebuildSegments` on the player's fields: trim the target;
   * when blank, empty the queue, reset the index and clear the paused flag;
   * otherwise queue the sentences (or the whole trimmed text when none
   * survives) and clamp the index to the last segment.
   */
  method RebuildPlayer(p: Player, target: string) returns (r: Player)
    requires 0 <= p.index
    ensures r == Rebuilt(p, target)
  {
    var text := Trim(target);
    if text == [] {
      return Player([], 0, false);
    }
    var parts := Pieces(text);
    var segments := if parts == [] then [text] else parts;
    var last := if |segments| - 1 < 0 then 0 else |segments| - 1;
    r := Player(segments, if p.index < last then p.index else last, p.paused);
  }

  // ---------------------------------------------------------------------------
  // The target phrase and the translation cache

  /** The custom phrase fields: `customEnglishText`, `customTargetText`, `usingCustomPhrase`. */
  datatype CustomPhrase = CustomPhrase(english: string, target: string, inUse: bool)

  const NoCustomPhrase := CustomPhrase("", "", false)

  /** Whether preset `i` has a cached translation that is not blank. */
  predicate IsCached(cache: map<int, string>, i: int) {
    i in cache && !IsBlank(cache[i])
  }

  /**
   * `effectiveTarget`: a non-blank custom translation in use, else a
   * non-blank cached translation of the current preset, else the English
   * preset itself (until its translation arrives).
   */
  function Target(custom: CustomPhrase, presets: seq<string>, cache: map<int, string>, i: int): string
    requires 0 <= i < |presets|
  {
    if custom.inUse && !IsBlank(custom.target) then custom.target
    else if IsCached(cache, i) then cache[i]
    else presets[i]
  }

  /**
   * The target is one of the three candidates; it is blank only when it fell
   * back to a blank preset; a custom phrase not in use and the cache entries
   * of other presets do not affect it.
   */
  lemma TargetShape(custom: CustomPhrase, presets: seq<string>, cache: map<int, string>, i: int)
    requires 0 <= i < |presets|
    ensures var t := Target(custom, presets, cache, i);
      t == custom.target || t == presets[i] || (i in cache && t == cache[i])
    ensures IsBlank(Target(custom, presets, cache, i)) ==> Target(custom, presets, cache, i) == presets[i]
    ensures !custom.inUse ==> Target(custom, presets, cache, i) == Target(NoCustomPhrase, presets, cache, i)
  {
  }

  /** Caching a translation for another preset leaves the target unchanged. */
  lemma TargetIgnoresOtherEntries(custom: CustomPhrase, presets: seq<string>, cache: map<int, string>, i: int, j: int, t: string)
    requires 0 <= i < |presets| && j != i
    ensures Target(custom, presets, cache[j := t], i) == Target(custom, presets, cache, i)
  {
  }

  /** The source code of every preset and custom translation request. */
  function EnglishCode(): string {
    AzureCode(English)
  }

  /** The request `translatePresetIfNeeded` sends for preset `i`, if any. */
  function PresetRequest(custom: CustomPhrase, presets: seq<string>, cache: map<int, string>, i: int, language: Language): seq<Effect>
    requires 0 <= i < |presets|
  {
    if custom.inUse || IsCached(cache, i) then []
    else [Translate(presets[i], Some(EnglishCode()), AzureCode(language))]
  }

  /**
   * At most one request, and one exactly when no custom phrase is in use and
   * the preset has no non-blank translation; it asks for the English preset,
   * from English, into the practice language.
   */
  lemma PresetRequestShape(custom: CustomPhrase, presets: seq<string>, cache: map<int, string>, i: int, language: Language)
    requires 0 <= i < |presets|
    ensures var r := PresetRequest(custom, presets, cache, i, language);
      |r| <= 1 && TranslateCount(r) == |r|
      && (r != [] <==> !custom.inUse && !IsCached(cache, i))
      && (r != [] ==> r[0] == Translate(presets[i], Some("en"), AzureCode(language)))
  {
  }

  /** A cache after a preset completion that files the result under `at`: a translation is stored, a failure changes nothing. */
  function Stored(cache: map<int, string>, at: int, result: Result<string, TranslatorService.TranslationError>): map<int, string> {
    if result.Success? then cache[at := result.value] else cache
  }

  /** For each cached entry, the preset whose request produced it, after a completion filed under `at`. */
  ghost function Provenance(from: map<int, int>, at: int, requested: int, result: Result<string, TranslatorService.TranslationError>): map<int, int> {
    if result.Success? then from[at := requested] else from
  }

  /** Every cached translation was requested for the preset it is filed under. */
  ghost predicate Faithful(cache: map<int, string>, from: map<int, int>) {
    forall i :: i in cache ==> i in from && from[i] == i
  }

  /** Filing each result under the index it was requested for keeps the cache faithful. */
  lemma StoredAtRequestIsFaithful(cache: map<int, string>, from: map<int, int>, requested: int,
                                  result: Result<string, TranslatorService.TranslationError>)
    requires Faithful(cache, from)
    ensures Faithful(Stored(cache, requested, result), Provenance(from, requested, requested, result))
    ensures result.Success? ==> Stored(cache, requested, result)[requested] == result.value
  {
  }

  /**
   * Filing a result under the index current at completion misfiles it once the
   * learner has moved on: with presets "Hello" and "Thank you", the request for
   * preset 0 sent on appearing and answered after "Next phrase" lands under
   * preset 1, which then plays and scores against the translation of "Hello".
   */
  lemma StoredAtCompletionMisfiles()
    ensures var presets := ["Hello", "Thank you"];
      var cache := Stored(map[], 1, Success("Hola"));
      var from := Provenance(map[], 1, 0, Success("Hola"));
      Target(NoCustomPhrase, presets, cache, 1) == "Hola" && from[1] == 0 && !Faithful(cache, from)
  {
    assert !IsBlank("Hola") by {
      assert !IsWhitespace("Hola"[0]);
    }
  }

  // ---------------------------------------------------------------------------
  // The session

  datatype PracticeState = Idle | Playing | Listening | Scored

  /** The attempt fields: `practiceState`, `recognizedText`, `score`, `feedbackText`, `attemptsForCurrent`. */
  datatype Attempt = Attempt(state: PracticeState, recognized: string, score: Option<int>, feedback: string, attempts: int)

  /** The attempt `resetForNewPhrase` leaves: idle, nothing heard, no score, no feedback, no attempts. */
  const FreshAttempt := Attempt(Idle, "", None, "", 0)

  predicate ValidPlayer(p: Player) {
    0 <= p.index && (p.index < |p.segments| || (p.segments == [] && p.index == 0))
  }

  predicate ValidAttempt(a: Attempt) {
    0 <= a.attempts && (a.score.Some? ==> 0 <= a.score.value <= 100)
  }

  class ListenRepeatSession {
    /** The English preset phrases, in order. */
    const presets: seq<string>
    /** The language practised; it comes from the presenting screen. */
    var practiceLanguage: Language
    /** The playback rate in hundredths: 25 slow, 50 normal. */
    var playbackSpeed: nat

    var currentIndex: int
    var attempt: Attempt
    var statusText: string
    var custom: CustomPhrase
    var isTranslatingCustom: bool
    /** Preset translations cached by phrase index. */
    var presetTranslatedByIndex: map<int, string>
    /** The playback queue: `playSegments`, `playIndex`, `isPausedTTS`. */
    var player: Player

    /** The calls made to the recognizer, the synthesizer, the translator and the clipboard, in order. */
    ghost var effects: seq<Effect>
    /** For each cached translation, the index of the preset whose request produced it. */
    ghost var translatedFrom: map<int, int>

    predicate Valid()
      reads this`currentIndex, this`player, this`attempt
    {
      0 <= currentIndex < |presets| && ValidPlayer(player) && ValidAttempt(attempt)
    }

    /** The screen as first shown: phrase 0, idle, nothing cached, nothing queued, normal speed. */
    constructor (presets: seq<string>, practiceLanguage: Language)
      requires |presets| > 0
      ensures Valid() && Faithful(presetTranslatedByIndex, translatedFrom)
      ensures this.presets == presets && this.practiceLanguage == practiceLanguage
      ensures currentIndex == 0 && playbackSpeed == 50
      ensures attempt == FreshAttempt && statusText == TapListenStatus
      ensures custom == NoCustomPhrase && !isTranslatingCustom
      ensures presetTranslatedByIndex == map[] && player == Player([], 0, false) && effects == []
    {
      this.presets := presets;
      this.practiceLanguage := practiceLanguage;
      playbackSpeed := 50;
      currentIndex := 0;
      attempt := FreshAttempt;
      statusText := TapListenStatus;
      custom := NoCustomPhrase;
      isTranslatingCustom := false;
      presetTranslatedByIndex := map[];
      player := Player([], 0, false);
      effects := [];
      translatedFrom := map[];
    }

    // ----- Derived values

    /** `effectiveTarget`. */
    function EffectiveTarget(): string
      reads this`custom, this`presetTranslatedByIndex, this`currentIndex
      requires 0 <= currentIndex < |presets|
    {
      Target(custom, presets, presetTranslatedByIndex, currentIndex)
    }

    /** `effectiveEnglish`: the custom English text when a custom phrase is in use and not blank, else the preset. */
    function EffectiveEnglish(): (r: string)
      reads this`custom, this`currentIndex
      requires 0 <= currentIndex < |presets|
      ensures r == custom.english || r == presets[currentIndex]
      ensures IsBlank(r) ==> r == presets[currentIndex]
      ensures !custom.inUse ==> r == presets[currentIndex]
    {
      if custom.inUse && !IsBlank(custom.english) then custom.english else presets[currentIndex]
    }

    /** `wordTokens`: the target's words, which run together give back its non-blank characters. */
    function WordTokens(): (r: seq<string>)
      reads this`custom, this`presetTranslatedByIndex, this`currentIndex
      requires 0 <= currentIndex < |presets|
      ensures forall i :: 0 <= i < |r| ==> r[i] != [] && HasNoSeparator(r[i], Whitespace)
      ensures Concat(r) == Kept(EffectiveTarget(), Whitespace)
    {
      TokensShape(EffectiveTarget(), Whitespace);
      TokensKeepEverythingElse(EffectiveTarget(), Whitespace);
      Tokens(EffectiveTarget(), Whitespace)
    }

    // ----- Preset translation

    /** `translatePresetIfNeeded`: one request for the current preset unless a custom phrase is in use or it is cached. */
    method TranslatePresetIfNeeded()
      requires Valid()
      modifies this`effects
      ensures effects == old(effects) + PresetRequest(custom, presets, presetTranslatedByIndex, currentIndex, practiceLanguage)
    {
      if custom.inUse {
        return;
      }
      if currentIndex in presetTranslatedByIndex && !IsBlank(presetTranslatedByIndex[currentIndex]) {
        return;
      }
      var english := presets[currentIndex];
      effects := effects + [Translate(english, Some(EnglishCode()), AzureCode(practiceLanguage))];
    }

    /**
     * The completion of a preset request, as written: a translation is filed
     * under the preset current when it arrives, whichever preset it was
     * requested for; a failure is dropped.
     */
    method OnPresetTranslatedAtCurrentIndex(ghost requestedIndex: int, result: Result<string, TranslatorService.TranslationError>)
      modifies this`presetTranslatedByIndex, this`translatedFrom
      ensures presetTranslatedByIndex == Stored(old(presetTranslatedByIndex), currentIndex, result)
      ensures translatedFrom == Provenance(old(translatedFrom), currentIndex, requestedIndex, result)
    {
      match result {
        case Success(translated) =>
          presetTranslatedByIndex := presetTranslatedByIndex[currentIndex := translated];
          translatedFrom := translatedFrom[currentIndex := requestedIndex];
        case Failure(_) =>
      }
    }

    /**
     * The completion of a preset request, filing the translation under the
     * index the request was sent for. Every cached translation then belongs
     * to its own preset.
     */
    method OnPresetTranslated(requestedIndex: int, result: Result<string, TranslatorService.TranslationError>)
      modifies this`presetTranslatedByIndex, this`translatedFrom
      ensures presetTranslatedByIndex == Stored(old(presetTranslatedByIndex), requestedIndex, result)
      ensures translatedFrom == Provenance(old(translatedFrom), requestedIndex, requestedIndex, result)
      ensures old(Faithful(presetTranslatedByIndex, translatedFrom)) ==> Faithful(presetTranslatedByIndex, translatedFrom)
    {
      if Faithful(presetTranslatedByIndex, translatedFrom) {
        StoredAtRequestIsFaithful(presetTranslatedByIndex, translatedFrom, requestedIndex, result);
      }
      match result {
        case Success(translated) =>
          presetTranslatedByIndex := presetTranslatedByIndex[requestedIndex := translated];
          translatedFrom := translatedFrom[requestedIndex := requestedIndex];
        case Failure(_) =>
      }
    }

    // ----- Segments and transport

    /** `rebuildSegments`: re-queue the segments of the current target and bring the play index into range. */
    method RebuildSegments()
      requires Valid()
      modifies this`player
      ensures Valid()
      ensures player == Rebuilt(old(player), Target(custom, presets, presetTranslatedByIndex, currentIndex))
    {
      player := RebuildPlayer(player, EffectiveTarget());
    }

    /** `playCurrentPhrase`: speak the whole target at the chosen rate; the attempt moves to playing. */
    method PlayCurrentPhrase()
      requires Valid()
      modifies this`attempt, this`statusText, this`effects
      ensures Valid()
      ensures attempt == old(attempt).(state := Playing) && statusText == PlayingPhraseStatus
      ensures effects == old(effects) + [Speak(EffectiveTarget(), TtsCode(practiceLanguage), Rate(playbackSpeed))]
    {
      var target := EffectiveTarget();
      statusText := PlayingPhraseStatus;
      effects := effects + [Speak(target, TtsCode(practiceLanguage), Rate(playbackSpeed))];
      attempt := attempt.(state := Playing);
    }

    /** `playSegmentNow`: rebuild, then speak the segment at the play index and clear the paused flag. */
    method PlaySegmentNow()
      requires Valid()
      modifies this`player, this`statusText, this`effects
      ensures Valid()
      ensures var p := Rebuilt(old(player), Target(custom, presets, presetTranslatedByIndex, currentIndex));
        if p.segments == [] then
          player == p && statusText == old(statusText) && effects == old(effects)
        else
          player == p.(paused := false) && statusText == PlayingStatus
          && effects == old(effects) + [Speak(p.segments[p.index], TtsCode(practiceLanguage), Rate(playbackSpeed))]
    {
      RebuildSegments();
      if player.segments == [] {
        return;
      }
      var text := player.segments[player.index];
      statusText := PlayingStatus;
      effects := effects + [Speak(text, TtsCode(practiceLanguage), Rate(playbackSpeed))];
      player := player.(paused := false);
    }

    /** `transportBack`: one segment back, stopping at the first, then play it; nothing when there is nothing to play. */
    method TransportBack()
      requires Valid()
      modifies this`player, this`statusText, this`effects
      ensures Valid()
      ensures var p := Rebuilt(old(player), Target(custom, presets, presetTranslatedByIndex, currentIndex));
        if p.segments == [] then
          player == p && statusText == old(statusText) && effects == old(effects)
        else
          var i := if p.index == 0 then 0 else p.index - 1;
          player == Player(p.segments, i, false) && statusText == PlayingStatus
          && effects == old(effects) + [Speak(p.segments[i], TtsCode(practiceLanguage), Rate(playbackSpeed))]
    {
      RebuildSegments();
      if player.segments == [] {
        return;
      }
      player := player.(index := if player.index - 1 < 0 then 0 else player.index - 1);
      RebuiltCurrent(player, EffectiveTarget());
      PlaySegmentNow();
    }

    /** `transportForward`: one segment on, stopping at the last, then play it; nothing when there is nothing to play. */
    method TransportForward()
      requires Valid()
      modifies this`player, this`statusText, this`effects
      ensures Valid()
      ensures var p := Rebuilt(old(player), Target(custom, presets, presetTranslatedByIndex, currentIndex));
        if p.segments == [] then
          player == p && statusText == old(statusText) && effects == old(effects)
        else
          var i := if p.index == |p.segments| - 1 then p.index else p.index + 1;
          player == Player(p.segments, i, false) && statusText == PlayingStatus
          && effects == old(effects) + [Speak(p.segments[i], TtsCode(practiceLanguage), Rate(playbackSpeed))]
    {
      RebuildSegments();
      if player.segments == [] {
        return;
      }
      var last := |player.segments| - 1;
      player := player.(index := if last < player.index + 1 then last else player.index + 1);
      RebuiltCurrent(player, EffectiveTarget());
      PlaySegmentNow();
    }

    /** `transportPlay`: resume when paused (queue and index untouched), otherwise play the current segment. */
    method TransportPlay()
      requires Valid()
      modifies this`player, this`statusText, this`effects
      ensures Valid()
      ensures old(player.paused) ==>
        player == old(player).(paused := false) && statusText == PlayingStatus && effects == old(effects) + [ResumeSpeech]
      ensures !old(player.paused) ==>
        var p := Rebuilt(old(player), Target(custom, presets, presetTranslatedByIndex, currentIndex));
        if p.segments == [] then
          player == p && statusText == old(statusText) && effects == old(effects)
        else
          player == p && statusText == PlayingStatus
          && effects == old(effects) + [Speak(p.segments[p.index], TtsCode(practiceLanguage), Rate(playbackSpeed))]
    {
      if player.paused {
        effects := effects + [ResumeSpeech];
        player := player.(paused := false);
        statusText := PlayingStatus;
      } else {
        PlaySegmentNow();
      }
    }

    /** `transportPause`: pause speech and set the paused flag; the queue and index stay. */
    method TransportPause()
      requires Valid()
      modifies this`player, this`statusText, this`effects
      ensures Valid()
      ensures player == old(player).(paused := true) && statusText == PausedStatus && effects == old(effects) + [PauseSpeech]
    {
      effects := effects + [PauseSpeech];
      player := player.(paused := true);
      statusText := PausedStatus;
    }

    /** `transportStop`: stop speech and clear the paused flag; the queue and index stay. */
    method TransportStop()
      requires Valid()
      modifies this`player, this`statusText, this`effects
      ensures Valid()
      ensures player == old(player).(paused := false) && statusText == StoppedStatus && effects == old(effects) + [StopSpeech]
    {
      effects := effects + [StopSpeech];
      player := player.(paused := false);
      statusText := StoppedStatus;
    }

    /** A tap on one of the word chips: that word, slowly. */
    method SpeakWord(i: int)
      requires Valid() && 0 <= i < |WordTokens()|
      modifies this`effects
      ensures effects == old(effects) + [Speak(WordTokens()[i], TtsCode(practiceLanguage), Rate(25))]
    {
      effects := effects + [Speak(WordTokens()[i], TtsCode(practiceLanguage), Rate(25))];
    }

    /** The speed buttons: 0.25 slow, 0.50 normal. */
    method SetSpeed(slow: bool)
      modifies this`playbackSpeed
      ensures playbackSpeed == if slow then 25 else 50
    {
      playbackSpeed := if slow then 25 else 50;
    }

    /** `copyPracticePhrase`: the trimmed target goes to the clipboard; a blank target copies nothing. */
    method CopyPracticePhrase()
      requires Valid()
      modifies this`statusText, this`effects
      ensures var t := Target(custom, presets, presetTranslatedByIndex, currentIndex);
        if IsBlank(t) then statusText == old(statusText) && effects == old(effects)
        else statusText == CopiedStatus && effects == old(effects) + [CopyToClipboard(Trim(t))]
    {
      var text := Trim(EffectiveTarget());
      TrimShape(EffectiveTarget());
      if text == [] {
        return;
      }
      effects := effects + [CopyToClipboard(text)];
      statusText := CopiedStatus;
    }

    // ----- Listening and scoring

    /** `startListening`: a new attempt; the previous result is cleared and the recognizer restarted. */
    method StartListening()
      requires Valid()
      modifies this`attempt, this`statusText, this`effects
      ensures Valid()
      ensures attempt == Attempt(Listening, "", None, "", old(attempt.attempts) + 1)
      ensures statusText == SpeakNowStatus
      ensures effects == old(effects) + [StopRecognizer, ResetRecognizer, StartRecognizer(LocaleIdentifier(practiceLanguage))]
    {
      attempt := Attempt(Listening, "", None, "", attempt.attempts + 1);
      statusText := SpeakNowStatus;
      effects := effects + [StopRecognizer, ResetRecognizer, StartRecognizer(LocaleIdentifier(practiceLanguage))];
    }

    /**
     * `stopListeningAndScore`: the trimmed transcript is scored against the
     * target, an empty one included (it scores 0), and the attempt ends scored.
     */
    method StopListeningAndScore(transcript: string)
      requires Valid()
      modifies this`attempt, this`statusText, this`effects
      ensures Valid()
      ensures var target := Target(custom, presets, presetTranslatedByIndex, currentIndex);
        var s := Score(target, Trim(transcript));
        attempt == Attempt(Scored, Trim(transcript), Some(s), Feedback(s, target), old(attempt.attempts))
        && statusText == ScoreStatus(s, Feedback(s, target))
      ensures effects == old(effects) + [StopRecognizer, ResetRecognizer]
    {
      attempt := attempt.(state := Idle);
      effects := effects + [StopRecognizer];
      var raw := Trim(transcript);
      var expected := EffectiveTarget();
      var s := SimilarityScore(expected, raw);
      var feedback := Feedback(s, expected);
      attempt := Attempt(Scored, raw, Some(s), feedback, attempt.attempts);
      statusText := ScoreStatus(s, feedback);
      effects := effects + [ResetRecognizer];
    }

    /** `toggleListening`: stop and score while listening, otherwise start a new attempt. */
    method ToggleListening(transcript: string)
      requires Valid()
      modifies this`attempt, this`statusText, this`effects
      ensures Valid()
      ensures old(attempt.state) == Listening ==>
        var target := Target(custom, presets, presetTranslatedByIndex, currentIndex);
        var s := Score(target, Trim(transcript));
        attempt == Attempt(Scored, Trim(transcript), Some(s), Feedback(s, target), old(attempt.attempts))
        && statusText == ScoreStatus(s, Feedback(s, target))
        && effects == old(effects) + [StopRecognizer, ResetRecognizer]
      ensures old(attempt.state) != Listening ==>
        attempt == Attempt(Listening, "", None, "", old(attempt.attempts) + 1)
        && statusText == SpeakNowStatus
        && effects == old(effects) + [StopRecognizer, ResetRecognizer, StartRecognizer(LocaleIdentifier(practiceLanguage))]
    {
      if attempt.state == Listening {
        StopListeningAndScore(transcript);
      } else {
        StartListening();
      }
    }

    // ----- Custom phrase and phrase changes

    /** The custom phrase text field. */
    method TypeCustomPhrase(text: string)
      modifies this`custom
      ensures custom == old(custom).(english := text)
    {
      custom := custom.(english := text);
    }

    /** `resetForNewPhrase`: a fresh, idle attempt at zero. */
    method ResetForNewPhrase()
      requires Valid()
      modifies this`attempt
      ensures Valid()
      ensures attempt == FreshAttempt
    {
      attempt := FreshAttempt;
    }

    /** `applyCustomPhrase`: ask for the trimmed custom text's translation; a blank text does nothing. */
    method ApplyCustomPhrase()
      requires Valid()
      modifies this`isTranslatingCustom, this`statusText, this`effects
      ensures IsBlank(custom.english) ==>
        isTranslatingCustom == old(isTranslatingCustom) && statusText == old(statusText) && effects == old(effects)
      ensures !IsBlank(custom.english) ==>
        isTranslatingCustom && statusText == TranslatingCustomStatus
        && effects == old(effects) + [Translate(Trim(custom.english), Some(EnglishCode()), AzureCode(practiceLanguage))]
    {
      var trimmed := Trim(custom.english);
      TrimShape(custom.english);
      if trimmed == [] {
        return;
      }
      isTranslatingCustom := true;
      statusText := TranslatingCustomStatus;
      effects := effects + [Translate(trimmed, Some(EnglishCode()), AzureCode(practiceLanguage))];
    }

    /**
     * The completion of a custom request: a translation becomes the target of
     * a fresh attempt (a blank one leaves the preset's target in force) and the
     * queue is rebuilt; a failure only reports the error.
     */
    method OnCustomTranslated(result: Result<string, TranslatorService.TranslationError>)
      requires Valid()
      modifies this`isTranslatingCustom, this`custom, this`attempt, this`statusText, this`player
      ensures Valid()
      ensures !isTranslatingCustom
      ensures result.Success? ==>
        custom == old(custom).(target := result.value, inUse := true)
        && attempt == FreshAttempt && statusText == CustomReadyStatus
        && player == Rebuilt(old(player), Target(custom, presets, presetTranslatedByIndex, currentIndex))
      ensures result.Failure? ==>
        custom == old(custom) && attempt == old(attempt) && player == old(player)
        && statusText == ErrorPrefix + result.error.Description()
    {
      isTranslatingCustom := false;
      match result {
        case Success(translated) =>
          custom := custom.(target := translated, inUse := true);
          ResetForNewPhrase();
          statusText := CustomReadyStatus;
          RebuildSegments();
        case Failure(error) =>
          statusText := ErrorPrefix + error.Description();
      }
    }

    /** `clearCustomPhrase`: back to the preset, with a fresh attempt at the same index. */
    method ClearCustomPhrase()
      requires Valid()
      modifies this`custom, this`attempt, this`statusText, this`effects, this`player
      ensures Valid()
      ensures custom == NoCustomPhrase && attempt == FreshAttempt && statusText == TapListenStatus
      ensures effects == old(effects) + PresetRequest(NoCustomPhrase, presets, presetTranslatedByIndex, currentIndex, practiceLanguage)
      ensures player == Rebuilt(old(player), Target(NoCustomPhrase, presets, presetTranslatedByIndex, currentIndex))
    {
      custom := NoCustomPhrase;
      ResetForNewPhrase();
      statusText := TapListenStatus;
      TranslatePresetIfNeeded();
      RebuildSegments();
    }

    /**
     * `goToNextPhrase`: stop everything, drop the custom phrase, start a fresh
     * attempt on the next preset (the last wraps to the first), and fetch its
     * translation when it has none.
     */
    method GoToNextPhrase()
      requires Valid()
      modifies this`custom, this`attempt, this`currentIndex, this`statusText, this`effects, this`player
      ensures Valid()
      ensures currentIndex == (old(currentIndex) + 1) % |presets|
      ensures custom == NoCustomPhrase && attempt == FreshAttempt && statusText == NextPhraseStatus
      ensures effects == old(effects) + [StopRecognizer, StopSpeech]
                         + PresetRequest(NoCustomPhrase, presets, presetTranslatedByIndex, currentIndex, practiceLanguage)
      ensures player == Rebuilt(old(player), Target(NoCustomPhrase, presets, presetTranslatedByIndex, currentIndex))
    {
      effects := effects + [StopRecognizer, StopSpeech];
      custom := NoCustomPhrase;
      attempt := FreshAttempt;
      currentIndex := (currentIndex + 1) % |presets|;
      statusText := NextPhraseStatus;
      TranslatePresetIfNeeded();
      RebuildSegments();
    }

    // ----- Appearance and observed changes

    /** On appearing: normal speed, fetch the current translation if needed, queue the segments. */
    method OnAppear()
      requires Valid()
      modifies this`playbackSpeed, this`effects, this`player
      ensures Valid()
      ensures playbackSpeed == 50
      ensures effects == old(effects) + PresetRequest(custom, presets, presetTranslatedByIndex, currentIndex, practiceLanguage)
      ensures player == Rebuilt(old(player), Target(custom, presets, presetTranslatedByIndex, currentIndex))
    {
      playbackSpeed := 50;
      TranslatePresetIfNeeded();
      RebuildSegments();
    }

    /** Run after `currentIndex` has changed: fetch the translation if needed and re-queue. */
    method OnCurrentIndexChanged()
      requires Valid()
      modifies this`effects, this`player
      ensures Valid()
      ensures effects == old(effects) + PresetRequest(custom, presets, presetTranslatedByIndex, currentIndex, practiceLanguage)
      ensures player == Rebuilt(old(player), Target(custom, presets, presetTranslatedByIndex, currentIndex))
    {
      TranslatePresetIfNeeded();
      RebuildSegments();
    }

    /**
     * A new practice language from the presenting screen. The cache is keyed
     * by phrase index alone, so a preset already translated is not fetched again.
     */
    method OnPracticeLanguageChanged(language: Language)
      requires Valid()
      modifies this`practiceLanguage, this`effects, this`player
      ensures Valid()
      ensures practiceLanguage == language
      ensures effects == old(effects) + PresetRequest(custom, presets, presetTranslatedByIndex, currentIndex, language)
      ensures player == Rebuilt(old(player), Target(custom, presets, presetTranslatedByIndex, currentIndex))
    {
      practiceLanguage := language;
      TranslatePresetIfNeeded();
      RebuildSegments();
    }

    /** On leaving: stop the recognizer and speech. */
    method OnDisappear()
      modifies this`effects
      ensures effects == old(effects) + [StopRecognizer, StopSpeech]
    {
      effects := effects + [StopRecognizer, StopSpeech];
    }
  }
}
