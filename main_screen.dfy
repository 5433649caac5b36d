/**
 * The translator screen (`ContentView`): the quick-phrase tables and the
 * lists built from them, the direction-dependent choice of recognition
 * locale, translation codes and voice, the hold-to-speak and tap-to-speak
 * listening paths, the quota gate in front of every charged translation,
 * the re-translation on a change of the "They hear" language, and the
 * language swap.
 */
module MainScreen {
  import opened Wrappers
  import opened Text
  import opened Languages
  import opened Effects
  import opened Quota
  import TranslatorService

  // ---------------------------------------------------------------------------
  // The phrase tables

  datatype PhraseCategory = Basic | Travel | Salon | Conversation

  datatype TravelSubcategory =
    Taxi | Bus | Train | Airport | Navigation | Food | Shopping | Hotel | Emergency | Basics

  /** `TravelSubcategory.allCases`: the declaration order. */
  const TravelOrder: seq<TravelSubcategory> :=
    [Taxi, Bus, Train, Airport, Navigation, Food, Shopping, Hotel, Emergency, Basics]

  /** `phrasesByCategory` and `travelPhrasesBySubcategory`. */
  datatype Tables = Tables(
    byCategory: map<PhraseCategory, seq<string>>,
    bySubcategory: map<TravelSubcategory, seq<string>>)

  /** `phrasesByCategory[c] ?? []`. */
  function CategoryList(t: Tables, c: PhraseCategory): seq<string> {
    if c in t.byCategory then t.byCategory[c] else []
  }

  /** `travelPhrasesBySubcategory[s] ?? []`. */
  function SubcategoryList(t: Tables, s: TravelSubcategory): seq<string> {
    if s in t.bySubcategory then t.bySubcategory[s] else []
  }

  const BasicPhrases: seq<string> := [
    "Hello, how are you?",
    "Nice to meet you.",
    "What is your name?",
    "Can you say that again?",
    "Can you speak more slowly, please?",
    "I’m learning your language.",
    "Thank you very much.",
    "Excuse me, can you help me?",
    "I don’t understand."]

  const SalonPhrases: seq<string> := [
    "I would like a haircut, please.",
    "Just a little shorter, please.",
    "Not too short on top.",
    "Please trim the sides.",
    "Can you wash my hair, please?",
    "Can you shave the neck?",
    "It looks great, thank you!"]

  const ConversationPhrases: seq<string> := [
    "What do you think?",
    "Can we talk for a moment?",
    "That’s interesting!",
    "I really appreciate your help."]

  const TaxiPhrases: seq<string> := [
    "Where can I find a taxi?",
    "I need a taxi, please.",
    "Can you call a taxi for me?",
    "How long will the taxi take to arrive?",
    "How much is the fare?",
    "Please take me here.",
    "Can you wait for me?"]

  const BusPhrases: seq<string> := [
    "Where is the bus stop?",
    "Which bus goes to the city center?",
    "What time is the next bus?",
    "Does this bus stop at ____?",
    "How much is a bus ticket?"]

  const TrainPhrases: seq<string> := [
    "Where is the train station?",
    "Which platform is the train on?",
    "When is the next train?",
    "Does this train stop at ____?",
    "How much is a train ticket?",
    "I would like to buy a train ticket."]

  const AirportPhrases: seq<string> := [
    "Where is the airport?",
    "Where is the check-in counter?",
    "Where is security?",
    "Where is my boarding gate?",
    "What time does boarding start?",
    "Where do I pick up my luggage?",
    "My bag is missing. Can you help me?",
    "I need assistance with my passport."]

  const DirectionsPhrases: seq<string> := [
    "I need directions, please.",
    "How do I get to the city center?",
    "Can you show me on the map?",
    "Is it far from here?",
    "Is it walking distance?",
    "Which way do I go?"]

  const FoodPhrases: seq<string> := [
    "Where is the nearest restaurant?",
    "Can you recommend a good place to eat?",
    "Do you take credit cards?",
    "Is there a vegetarian option?",
    "I would like a table for two."]

  const ShoppingPhrases: seq<string> := [
    "How much does this cost?",
    "Do you have this in another size?",
    "Do you have this in another color?",
    "Can I try this on?",
    "Is there a discount?"]

  const HotelPhrases: seq<string> := [
    "Where is the hotel reception?",
    "I have a reservation.",
    "Can I check in early?",
    "What time is checkout?",
    "Can you hold my luggage?",
    "How do I connect to the Wi-Fi?"]

  const EmergencyPhrases: seq<string> := [
    "I need help!",
    "Please call an ambulance!",
    "Please call the police!",
    "I lost my passport.",
    "I lost my wallet.",
    "I am lost. Can you help me?"]

  const TravelBasicsPhrases: seq<string> := [
    "Where is the bathroom?",
    "Do you speak English?",
    "Can you speak more slowly?",
    "I don't understand.",
    "Can you repeat that?"]

  /** The tables the screen ships with; travel phrases have no entry under the travel category. */
  const AppTables: Tables := Tables(
    map[Basic := BasicPhrases, Salon := SalonPhrases, Conversation := ConversationPhrases],
    map[
      Taxi := TaxiPhrases,
      Bus := BusPhrases,
      Train := TrainPhrases,
      Airport := AirportPhrases,
      Navigation := DirectionsPhrases,
      Food := FoodPhrases,
      Shopping := ShoppingPhrases,
      Hotel := HotelPhrases,
      Emergency := EmergencyPhrases,
      Basics := TravelBasicsPhrases])

  /**
   * `quickPhrases`, and `v1SelectedPhrasesForPractice` (the list handed to
   * Listen & Repeat), which chooses the same way: the selected subcategory's
   * list under the travel category, the category's own list otherwise.
   */
  function QuickPhrases(t: Tables, c: PhraseCategory, s: TravelSubcategory): seq<string> {
    if c == Travel then SubcategoryList(t, s) else CategoryList(t, c)
  }

  /** The travel lists of `subs`, one after the other. */
  function TravelLists(t: Tables, subs: seq<TravelSubcategory>): seq<string> {
    if subs == [] then [] else TravelLists(t, subs[..|subs| - 1]) + SubcategoryList(t, subs[|subs| - 1])
  }

  /** `v1PracticePhrases`, which nothing in the app uses: basic, the travel lists in declaration order, salon, then conversation. */
  function PracticeList(t: Tables): seq<string> {
    CategoryList(t, Basic) + TravelLists(t, TravelOrder) + CategoryList(t, Salon) + CategoryList(t, Conversation)
  }

  lemma TravelListsStep(t: Tables, k: nat)
    requires 0 < k <= |TravelOrder|
    ensures TravelLists(t, TravelOrder[..k]) == TravelLists(t, TravelOrder[..k - 1]) + SubcategoryList(t, TravelOrder[k - 1])
  {
    assert TravelOrder[..k][..k - 1] == TravelOrder[..k - 1];
  }

  /** Three travel lists at a time. */
  lemma TravelListsThree(t: Tables, k: nat)
    requires 3 <= k <= |TravelOrder|
    ensures TravelLists(t, TravelOrder[..k]) == TravelLists(t, TravelOrder[..k - 3])
      + SubcategoryList(t, TravelOrder[k - 3]) + SubcategoryList(t, TravelOrder[k - 2]) + SubcategoryList(t, TravelOrder[k - 1])
  {
    TravelListsStep(t, k - 2);
    TravelListsStep(t, k - 1);
    TravelListsStep(t, k);
  }

  /** The travel part of the practice list, one subcategory at a time in declaration order. */
  lemma TravelListsSpelledOut(t: Tables)
    ensures TravelLists(t, TravelOrder) ==
      SubcategoryList(t, Taxi) + SubcategoryList(t, Bus) + SubcategoryList(t, Train)
      + SubcategoryList(t, Airport) + SubcategoryList(t, Navigation) + SubcategoryList(t, Food)
      + SubcategoryList(t, Shopping) + SubcategoryList(t, Hotel) + SubcategoryList(t, Emergency)
      + SubcategoryList(t, Basics)
  {
    assert TravelOrder[..0] == [];
    TravelListsThree(t, 3);
    var first := SubcategoryList(t, Taxi) + SubcategoryList(t, Bus) + SubcategoryList(t, Train);
    assert TravelLists(t, TravelOrder[..3]) == first;
    TravelListsThree(t, 6);
    var second := first + SubcategoryList(t, Airport) + SubcategoryList(t, Navigation) + SubcategoryList(t, Food);
    assert TravelLists(t, TravelOrder[..6]) == second;
    TravelListsThree(t, 9);
    var third := second + SubcategoryList(t, Shopping) + SubcategoryList(t, Hotel) + SubcategoryList(t, Emergency);
    assert TravelLists(t, TravelOrder[..9]) == third;
    TravelListsStep(t, 10);
    assert TravelOrder[..10] == TravelOrder;
  }

  lemma Regroup<T>(a: seq<T>, b: seq<T>, c: seq<T>)
    ensures a + b + c == a + (b + c)
  {
  }

  /** `v1PracticePhrases`, appending one list at a time. */
  method V1PracticePhrases(t: Tables) returns (out: seq<string>)
    ensures out == PracticeList(t)
  {
    out := [];
    out := out + CategoryList(t, Basic);
    ghost var basic := out;
    out := out + SubcategoryList(t, Taxi);
    ghost var travel := SubcategoryList(t, Taxi);
    Regroup(basic, travel, SubcategoryList(t, Bus));
    out := out + SubcategoryList(t, Bus);
    travel := travel + SubcategoryList(t, Bus);
    Regroup(basic, travel, SubcategoryList(t, Train));
    out := out + SubcategoryList(t, Train);
    travel := travel + SubcategoryList(t, Train);
    Regroup(basic, travel, SubcategoryList(t, Airport));
    out := out + SubcategoryList(t, Airport);
    travel := travel + SubcategoryList(t, Airport);
    Regroup(basic, travel, SubcategoryList(t, Navigation));
    out := out + SubcategoryList(t, Navigation);
    travel := travel + SubcategoryList(t, Navigation);
    Regroup(basic, travel, SubcategoryList(t, Food));
    out := out + SubcategoryList(t, Food);
    travel := travel + SubcategoryList(t, Food);
    Regroup(basic, travel, SubcategoryList(t, Shopping));
    out := out + SubcategoryList(t, Shopping);
    travel := travel + SubcategoryList(t, Shopping);
    Regroup(basic, travel, SubcategoryList(t, Hotel));
    out := out + SubcategoryList(t, Hotel);
    travel := travel + SubcategoryList(t, Hotel);
    Regroup(basic, travel, SubcategoryList(t, Emergency));
    out := out + SubcategoryList(t, Emergency);
    travel := travel + SubcategoryList(t, Emergency);
    Regroup(basic, travel, SubcategoryList(t, Basics));
    out := out + SubcategoryList(t, Basics);
    travel := travel + SubcategoryList(t, Basics);
    TravelListsSpelledOut(t);
    out := out + CategoryList(t, Salon);
    out := out + CategoryList(t, Conversation);
  }

  /** A phrase is in the travel lists of `subs` exactly when one of those lists holds it. */
  lemma {:induction false} TravelListsHold(t: Tables, subs: seq<TravelSubcategory>, x: string)
    ensures x in TravelLists(t, subs) <==> exists i :: 0 <= i < |subs| && x in SubcategoryList(t, subs[i])
  {
    if subs != [] {
      var init := subs[..|subs| - 1];
      TravelListsHold(t, init, x);
      if x in TravelLists(t, subs) {
        if x in TravelLists(t, init) {
          var i :| 0 <= i < |init| && x in SubcategoryList(t, init[i]);
          assert subs[i] == init[i];
        } else {
          assert x in SubcategoryList(t, subs[|subs| - 1]);
        }
      } else {
        forall i | 0 <= i < |subs| ensures x !in SubcategoryList(t, subs[i]) {
          if i < |init| {
            assert subs[i] == init[i];
          }
        }
      }
    }
  }

  /**
   * The practice list offers exactly the phrases of the quick-phrase
   * selections: every phrase some category/subcategory choice shows, and no
   * other.
   */
  lemma PracticeListIsEverySelection(t: Tables, x: string)
    ensures x in PracticeList(t) <==> exists c, s :: x in QuickPhrases(t, c, s)
  {
    TravelListsHold(t, TravelOrder, x);
    if x in PracticeList(t) {
      if x in CategoryList(t, Basic) {
        assert x in QuickPhrases(t, Basic, Taxi);
      } else if x in TravelLists(t, TravelOrder) {
        var i :| 0 <= i < |TravelOrder| && x in SubcategoryList(t, TravelOrder[i]);
        assert x in QuickPhrases(t, Travel, TravelOrder[i]);
      } else if x in CategoryList(t, Salon) {
        assert x in QuickPhrases(t, Salon, Taxi);
      } else {
        assert x in QuickPhrases(t, Conversation, Taxi);
      }
    } else {
      forall c, s ensures x !in QuickPhrases(t, c, s) {
        if c == Travel {
          assert s == TravelOrder[IndexOfSubcategory(s)];
        }
      }
    }
  }

  /** Where a subcategory sits in the declaration order. */
  function IndexOfSubcategory(s: TravelSubcategory): (i: nat)
    ensures i < |TravelOrder| && TravelOrder[i] == s
  {
    match s
    case Taxi => 0
    case Bus => 1
    case Train => 2
    case Airport => 3
    case Navigation => 4
    case Food => 5
    case Shopping => 6
    case Hotel => 7
    case Emergency => 8
    case Basics => 9
  }

  /** With the shipped tables the practice list holds 79 phrases. */
  lemma AppPracticeListLength()
    ensures |PracticeList(AppTables)| == 79
  {
    TravelListsSpelledOut(AppTables);
  }

  /**
   * With the shipped tables every selection the pickers allow has at least
   * four phrases, so the list handed to Listen & Repeat always has a first
   * phrase.
   */
  lemma AppSelectionsNonEmpty(c: PhraseCategory, s: TravelSubcategory)
    ensures |QuickPhrases(AppTables, c, s)| >= 4
  {
  }

  // ---------------------------------------------------------------------------
  // Direction and language codes

  /** `TalkDirection`: who is speaking. */
  datatype Direction = YouToThem | ThemToYou

  /** The "You speak" and "They hear" pickers. */
  datatype LanguagePair = LanguagePair(you: Language, they: Language)

  /** The screen's settings: the languages, the direction and the two toggles. */
  datatype Settings = Settings(languages: LanguagePair, direction: Direction, autoDetect: bool, autoResponse: bool)

  function Flip(d: Direction): Direction {
    if d == YouToThem then ThemToYou else YouToThem
  }

  /** The person whose speech is recognised and translated. */
  function Speaker(p: LanguagePair, d: Direction): Language {
    if d == YouToThem then p.you else p.they
  }

  /** The person the translation is for: the speaker of the other direction. */
  function Listener(p: LanguagePair, d: Direction): Language {
    Speaker(p, Flip(d))
  }

  /** The locale chosen in `startListeningOnce`: the speaker's. */
  function RecognitionLocale(s: Settings): (r: string)
    ensures r == LocaleIdentifier(Speaker(s.languages, s.direction))
  {
    match s.direction
    case YouToThem => LocaleIdentifier(s.languages.you)
    case ThemToYou => LocaleIdentifier(s.languages.they)
  }

  /** The `from` code: none under auto-detect, so the service detects it; otherwise the speaker's. */
  function FromCode(s: Settings): (r: Option<string>)
    ensures r.None? <==> s.autoDetect
    ensures r.Some? ==> r.value == AzureCode(Speaker(s.languages, s.direction))
  {
    if s.autoDetect then None
    else match s.direction
      case YouToThem => Some(AzureCode(s.languages.you))
      case ThemToYou => Some(AzureCode(s.languages.they))
  }

  /** The `to` code: always the listener's. */
  function ToCode(s: Settings): (r: string)
    ensures r == AzureCode(Listener(s.languages, s.direction))
  {
    match s.direction
    case YouToThem => AzureCode(s.languages.they)
    case ThemToYou => AzureCode(s.languages.you)
  }

  /** `playTTSCode` and the voice of `performTranslation`: always the listener's. */
  function PlayTtsCode(s: Settings): (r: string)
    ensures r == TtsCode(Listener(s.languages, s.direction))
  {
    match s.direction
    case YouToThem => TtsCode(s.languages.they)
    case ThemToYou => TtsCode(s.languages.you)
  }

  /**
   * Reversing the direction reverses the translation: the new source is the
   * old target and the new target is the old source.
   */
  lemma ReversingDirectionSwapsCodes(s: Settings)
    requires !s.autoDetect
    ensures FromCode(s.(direction := Flip(s.direction))) == Some(ToCode(s))
    ensures ToCode(s.(direction := Flip(s.direction))) == FromCode(s).value
  {
  }

  /** `swapLanguages`. */
  function Swapped(p: LanguagePair): (r: LanguagePair)
    ensures r.you == p.they && r.they == p.you
  {
    LanguagePair(p.they, p.you)
  }

  /** Swapping twice restores both languages; swapping the languages is the same as reversing the direction. */
  lemma SwapTwiceRestores(p: LanguagePair, d: Direction)
    ensures Swapped(Swapped(p)) == p
    ensures Speaker(Swapped(p), d) == Listener(p, d) && Listener(Swapped(p), d) == Speaker(p, d)
  {
  }

  // ---------------------------------------------------------------------------
  // The screen state and its transitions

  /** The status line; `StatusText` gives the text shown. */
  datatype Status =
    | Idle
    | Listening
    | Translating
    | NoSpeech
    | LimitReached
    | Translated
    | Failed
    | TranslatingPhrase
    | PhraseTranslated

  function StatusText(s: Status): string {
    match s
    case Idle => "Idle"
    case Listening => "Listening…"
    case Translating => "Translating…"
    case NoSpeech => "No speech detected"
    case LimitReached => "Daily limit reached"
    case Translated => "Translated."
    case Failed => "Error."
    case TranslatingPhrase => "Translating phrase…"
    case PhraseTranslated => "Phrase translated."
  }

  /** The fields the listening and translation paths write. */
  datatype Screen = Screen(listening: bool, status: Status, heard: string, translated: string, limitAlert: bool)

  const InitialScreen := Screen(false, Idle, "", "", false)

  /**
   * What a translation completion will do, fixed when the request is made:
   * speak the result (or not) in the voice chosen then and maybe listen
   * again; show it without speaking; or show and speak a quick phrase.
   */
  datatype Job = Spoken(autoSpeak: bool, restart: bool, ttsCode: string) | Refresh | Phrase

  /** One transition: the new screen, the calls made, the completion awaited, the quota store after. */
  datatype Step = Step(screen: Screen, requests: seq<Effect>, job: Option<Job>, quota: Store)

  /** `startListeningOnce`: listening, with the heard and translated text cleared. */
  function ListeningStarted(sc: Screen): (r: Screen)
    ensures r.listening && r.status == Listening && r.heard == [] && r.translated == []
    ensures r.limitAlert == sc.limitAlert
  {
    sc.(listening := true, status := Listening, heard := "", translated := "")
  }

  /** The text `stopListeningOnce` translates: the recognizer's if it has any, else what was heard, trimmed. */
  function Transcript(recognized: string, heard: string): string {
    var fromRecognizer := Trim(recognized);
    Trim(if fromRecognizer == [] then heard else fromRecognizer)
  }

  /** The recognizer's text wins unless it is blank; the result is trimmed and blank only when both are. */
  lemma TranscriptShape(recognized: string, heard: string)
    ensures !IsBlank(recognized) ==> Transcript(recognized, heard) == Trim(recognized)
    ensures IsBlank(recognized) ==> Transcript(recognized, heard) == Trim(heard)
    ensures Transcript(recognized, heard) == [] <==> IsBlank(recognized) && IsBlank(heard)
    ensures IsTrimmedBy(Transcript(recognized, heard), WhitespaceAndNewlines)
  {
    TrimShape(recognized);
    TrimShape(heard);
    TrimmedIsFixed(Trim(recognized), WhitespaceAndNewlines);
    TrimShape(Transcript(recognized, heard));
  }

  /**
   * `performTranslation`: charge one translation; refused, raise the alert
   * and say so; granted, request it in the direction's codes and await a
   * completion that speaks in the listener's voice.
   */
  function Translation(sc: Screen, s: Settings, text: string, autoSpeak: bool, restart: bool, store: Store, today: string): Step {
    var (granted, next) := Consume(store, today);
    if !granted then Step(sc.(limitAlert := true, status := LimitReached), [], None, next)
    else Step(sc, [Translate(text, FromCode(s), ToCode(s))], Some(Spoken(autoSpeak, restart, PlayTtsCode(s))), next)
  }

  /**
   * `stopListeningOnce`: nothing when not listening; otherwise stop the
   * recognizer, keep the transcript as the heard phrase, and translate it
   * unless it is blank.
   */
  function Stopped(sc: Screen, s: Settings, recognized: string, autoSpeak: bool, restart: bool, store: Store, today: string): Step {
    if !sc.listening then Step(sc, [], None, store)
    else
      var text := Transcript(recognized, sc.heard);
      var stopped := sc.(listening := false, status := Translating, heard := text);
      if text == [] then Step(stopped.(translated := "", status := NoSpeech), [StopRecognizer], None, store)
      else
        var t := Translation(stopped, s, text, autoSpeak, restart, store, today);
        t.(requests := [StopRecognizer] + t.requests)
  }

  /** A charged translation is requested exactly when the quota grants it, and the quota store moves as `Consume` says. */
  lemma TranslationChargesFirst(sc: Screen, s: Settings, text: string, autoSpeak: bool, restart: bool, store: Store, today: string)
    ensures var o := Translation(sc, s, text, autoSpeak, restart, store, today);
      o.quota == Consume(store, today).1
      && (Consume(store, today).0 <==> o.requests != [])
      && (o.requests != [] ==>
            o.requests == [Translate(text, FromCode(s), ToCode(s))]
            && o.job == Some(Spoken(autoSpeak, restart, TtsCode(Listener(s.languages, s.direction))))
            && o.screen == sc)
      && (o.requests == [] ==> o.screen == sc.(limitAlert := true, status := LimitReached) && o.job.None?)
  {
  }

  /** Stopping twice is stopping once: after a stop the screen is not listening, and a stop then changes nothing. */
  lemma StopIsIdempotent(sc: Screen, s: Settings, recognized: string, recognized2: string, autoSpeak: bool, restart: bool, store: Store, store2: Store, today: string)
    ensures !Stopped(sc, s, recognized, autoSpeak, restart, store, today).screen.listening
    ensures var o := Stopped(sc, s, recognized, autoSpeak, restart, store, today);
      Stopped(o.screen, s, recognized2, autoSpeak, restart, store2, today) == Step(o.screen, [], None, store2)
  {
  }

  /**
   * A blank transcript is neither charged nor translated: the status says no
   * speech was detected and the only call is the recognizer's stop.
   */
  lemma BlankSpeechIsNotTranslated(sc: Screen, s: Settings, recognized: string, autoSpeak: bool, restart: bool, store: Store, today: string)
    requires sc.listening && IsBlank(recognized) && IsBlank(sc.heard)
    ensures var o := Stopped(sc, s, recognized, autoSpeak, restart, store, today);
      o.requests == [StopRecognizer] && o.quota == store && o.job.None?
      && o.screen.status == NoSpeech && o.screen.heard == [] && o.screen.translated == []
  {
    TranscriptShape(recognized, sc.heard);
  }

  /**
   * Otherwise a stop charges one translation: the text sent is the
   * recognizer's trimmed text when it has any, else the trimmed heard phrase,
   * and it is sent only when the quota grants it.
   */
  lemma SpeechIsTranslatedWhenGranted(sc: Screen, s: Settings, recognized: string, autoSpeak: bool, restart: bool, store: Store, today: string)
    requires sc.listening && !(IsBlank(recognized) && IsBlank(sc.heard))
    ensures var o := Stopped(sc, s, recognized, autoSpeak, restart, store, today);
      var text := if IsBlank(recognized) then Trim(sc.heard) else Trim(recognized);
      o.screen.heard == text && !o.screen.listening && o.quota == Consume(store, today).1
      && (Consume(store, today).0 ==> o.requests == [StopRecognizer, Translate(text, FromCode(s), ToCode(s))] && o.screen.status == Translating)
      && (!Consume(store, today).0 ==> o.requests == [StopRecognizer] && o.screen.status == LimitReached && o.screen.limitAlert)
  {
    TranscriptShape(recognized, sc.heard);
  }

  /**
   * `handleLanguageChangeReTranslation`: translate the heard phrase again,
   * uncharged and without speaking; nothing for a blank phrase.
   */
  function Retranslation(sc: Screen, s: Settings, store: Store): Step {
    var text := Trim(sc.heard);
    if text == [] then Step(sc, [], None, store)
    else Step(sc.(status := Translating), [Translate(text, FromCode(s), ToCode(s))], Some(Refresh), store)
  }

  /** A re-translation happens exactly for a phrase that is not blank, sends its trimmed text and is never charged. */
  lemma RetranslationShape(sc: Screen, s: Settings, store: Store)
    ensures var o := Retranslation(sc, s, store);
      o.quota == store
      && (o.requests == [] <==> IsBlank(sc.heard))
      && (o.requests == [] ==> o.screen == sc && o.job.None?)
      && (o.requests != [] ==> o.requests == [Translate(Trim(sc.heard), FromCode(s), ToCode(s))] && o.job == Some(Refresh))
  {
    TrimShape(sc.heard);
  }

  // ---------------------------------------------------------------------------
  // Quick-phrase playback

  /**
   * `playQuickPhrase` as written: nothing for an empty list, then the quota
   * charge, then `phrases[selectedPhraseIndex]`, which traps when the index
   * is out of range; the precondition is that demand.
   */
  function QuickPhrasePlayedAsWritten(sc: Screen, they: Language, phrases: seq<string>, index: int, store: Store, today: string): Step
    requires phrases == [] || !Consume(store, today).0 || 0 <= index < |phrases|
  {
    if phrases == [] then Step(sc, [], None, store)
    else
      var (granted, next) := Consume(store, today);
      if !granted then Step(sc.(limitAlert := true, status := LimitReached), [], None, next)
      else PhraseRequested(sc, they, phrases[index], next)
  }

  /** The granted half of `playQuickPhrase`: show the English phrase and translate it from English. */
  function PhraseRequested(sc: Screen, they: Language, english: string, next: Store): Step {
    Step(sc.(heard := english, status := TranslatingPhrase, translated := ""),
         [Translate(english, Some(AzureCode(English)), AzureCode(they))], Some(Phrase), next)
  }

  /**
   * The selected index outlives a change of category: it is chosen on the
   * wheel of one list and kept when the category picker shows a shorter one.
   * With the shipped tables, the ninth basic phrase then indexes the four
   * conversation phrases, and on a fresh day's first charge the as-written
   * playback traps after taking the quota.
   */
  lemma StaleIndexTraps(today: string)
    ensures 8 < |QuickPhrases(AppTables, Basic, Taxi)|
    ensures var phrases := QuickPhrases(AppTables, Conversation, Taxi);
      !(phrases == [] || !Consume(Store(0, None), today).0 || 0 <= 8 < |phrases|)
  {
  }

  /** `playQuickPhrase` with the index checked before anything is charged. */
  function QuickPhrasePlayed(sc: Screen, they: Language, phrases: seq<string>, index: int, store: Store, today: string): Step {
    if !(0 <= index < |phrases|) then Step(sc, [], None, store)
    else
      var (granted, next) := Consume(store, today);
      if !granted then Step(sc.(limitAlert := true, status := LimitReached), [], None, next)
      else PhraseRequested(sc, they, phrases[index], next)
  }

  /** The checked playback does what the source does on every input the source does not trap on. */
  lemma QuickPhraseCheckAgrees(sc: Screen, they: Language, phrases: seq<string>, index: int, store: Store, today: string)
    requires phrases == [] || 0 <= index < |phrases|
    ensures QuickPhrasePlayed(sc, they, phrases, index, store, today) == QuickPhrasePlayedAsWritten(sc, they, phrases, index, store, today)
  {
  }

  /**
   * A quick phrase is charged only when the index is in range, and
   * translated from English into the "They hear" language only when the
   * quota grants it; a refusal raises the alert.
   */
  lemma QuickPhraseShape(sc: Screen, they: Language, phrases: seq<string>, index: int, store: Store, today: string)
    ensures var o := QuickPhrasePlayed(sc, they, phrases, index, store, today);
      (!(0 <= index < |phrases|) ==> o == Step(sc, [], None, store))
      && (0 <= index < |phrases| ==>
            o.quota == Consume(store, today).1
            && (Consume(store, today).0 ==>
                  o.requests == [Translate(phrases[index], Some(AzureCode(English)), AzureCode(they))]
                  && o.screen.heard == phrases[index] && o.job == Some(Phrase))
            && (!Consume(store, today).0 ==>
                  o.requests == [] && o.screen.limitAlert && o.screen.status == LimitReached))
  {
  }

  // ---------------------------------------------------------------------------
  // The screen

  /** The completion awaited after a step, if any. */
  function Awaited(j: Option<Job>): (r: seq<Job>)
    ensures j.None? ==> r == []
    ensures j.Some? ==> r == [j.value]
  {
    if j.Some? then [j.value] else []
  }

  /**
   * The hold-to-speak flag, the auto-response session flag, the hold tip,
   * and whether a silence auto-stop is scheduled (a newer one replaces it,
   * and starting or stopping cancels it).
   */
  datatype Mic = Mic(pressing: bool, autoSession: bool, holdTip: bool, silencePending: bool)

  /** The quick-phrase pickers. */
  datatype Selection = Selection(category: PhraseCategory, subcategory: TravelSubcategory, index: int)

  class TranslatorScreen {
    const tables: Tables
    /** The device's shared daily quota. */
    const limits: DailyLimitManager

    var settings: Settings
    var screen: Screen
    var mic: Mic
    var selection: Selection
    /** The translation completions still awaited, oldest first. */
    var pending: seq<Job>

    /** The calls made to the recognizer, the synthesizer and the translator, in order. */
    ghost var effects: seq<Effect>

    constructor (tables: Tables, limits: DailyLimitManager)
      ensures this.tables == tables && this.limits == limits
      ensures settings == Settings(LanguagePair(English, Spanish), YouToThem, false, false)
      ensures screen == InitialScreen && mic == Mic(false, false, false, false)
      ensures selection == Selection(Basic, Taxi, 0) && pending == [] && effects == []
    {
      this.tables := tables;
      this.limits := limits;
      settings := Settings(LanguagePair(English, Spanish), YouToThem, false, false);
      screen := InitialScreen;
      mic := Mic(false, false, false, false);
      selection := Selection(Basic, Taxi, 0);
      pending := [];
      effects := [];
    }

    /**
     * `swapLanguages`. The "They hear" language changes whenever the two
     * differ, and that change re-translates the phrase heard.
     */
    method SwapLanguages()
      modifies this`settings, this`screen, this`pending, this`effects
      ensures settings == old(settings).(languages := Swapped(old(settings).languages))
      ensures old(settings).languages.you != old(settings).languages.they ==>
        var o := Retranslation(old(screen), settings, limits.Stored());
        screen == o.screen && effects == old(effects) + o.requests && pending == old(pending) + Awaited(o.job)
      ensures old(settings).languages.you == old(settings).languages.they ==>
        screen == old(screen) && effects == old(effects) && pending == old(pending)
    {
      var temp := settings.languages.they;
      settings := settings.(languages := settings.languages.(they := settings.languages.you));
      settings := settings.(languages := settings.languages.(you := temp));
      if settings.languages.they != temp {
        HandleLanguageChangeReTranslation();
      }
    }

    /** The Play button: the translation on show, spoken again in the listener's voice for the direction. */
    method PlayTranslation()
      modifies this`effects
      ensures effects == old(effects) + [Speak(screen.translated, PlayTtsCode(settings), DefaultRate)]
    {
      var ttsCode := match settings.direction
        case YouToThem => TtsCode(settings.languages.they)
        case ThemToYou => TtsCode(settings.languages.you);
      effects := effects + [Speak(screen.translated, ttsCode, DefaultRate)];
    }

    /** The "You speak" picker. */
    method SelectYouLanguage(l: Language)
      modifies this`settings
      ensures settings == old(settings).(languages := old(settings).languages.(you := l))
    {
      settings := settings.(languages := settings.languages.(you := l));
    }

    /** The "They hear" picker; a change of `they` re-translates the phrase heard, whatever the direction. */
    method SelectTheyLanguage(l: Language)
      modifies this`settings, this`screen, this`pending, this`effects
      ensures settings == old(settings).(languages := old(settings).languages.(they := l))
      ensures l != old(settings).languages.they ==>
        var o := Retranslation(old(screen), settings, limits.Stored());
        screen == o.screen && effects == old(effects) + o.requests && pending == old(pending) + Awaited(o.job)
      ensures l == old(settings).languages.they ==>
        screen == old(screen) && effects == old(effects) && pending == old(pending)
    {
      var previous := settings.languages.they;
      settings := settings.(languages := settings.languages.(they := l));
      if l != previous {
        HandleLanguageChangeReTranslation();
      }
    }

    /** The "You → Them" and "Them → You" buttons. */
    method SetDirection(d: Direction)
      modifies this`settings
      ensures settings == old(settings).(direction := d)
    {
      settings := settings.(direction := d);
    }

    /** The auto-detect toggle. */
    method SetAutoDetect(on: bool)
      modifies this`settings
      ensures settings == old(settings).(autoDetect := on)
    {
      settings := settings.(autoDetect := on);
    }

    /** The auto-response toggle, which also chooses between the tap and the hold microphone. */
    method SetAutoResponse(on: bool)
      modifies this`settings
      ensures settings == old(settings).(autoResponse := on)
    {
      settings := settings.(autoResponse := on);
    }

    /** `startListeningOnce`: cancel the silence stop, clear the texts, listen in the speaker's locale. */
    method StartListeningOnce()
      modifies this`screen, this`mic, this`effects
      ensures screen == ListeningStarted(old(screen)) && mic == old(mic).(silencePending := false)
      ensures effects == old(effects) + [StartRecognizer(RecognitionLocale(settings))]
    {
      mic := mic.(silencePending := false);
      screen := screen.(status := Listening, listening := true, heard := "", translated := "");
      var localeIdentifier := match settings.direction
        case YouToThem => LocaleIdentifier(settings.languages.you)
        case ThemToYou => LocaleIdentifier(settings.languages.they);
      effects := effects + [StartRecognizer(localeIdentifier)];
    }

    /** `performTranslation`: the quota gate, then the request in the direction's codes. */
    method PerformTranslation(transcript: string, autoSpeak: bool, restart: bool, today: string)
      modifies this`screen, this`pending, this`effects, limits
      ensures var o := Translation(old(screen), settings, transcript, autoSpeak, restart, old(limits.Stored()), today);
        screen == o.screen && effects == old(effects) + o.requests
        && pending == old(pending) + Awaited(o.job) && limits.Stored() == o.quota
    {
      var allowed := limits.ConsumeOneIfAvailable(today);
      if !allowed {
        screen := screen.(limitAlert := true, status := LimitReached);
        return;
      }
      var fromCode := FromCode(settings);
      var toCode := ToCode(settings);
      var ttsCode := PlayTtsCode(settings);
      effects := effects + [Translate(transcript, fromCode, toCode)];
      pending := pending + [Spoken(autoSpeak, restart, ttsCode)];
    }

    /** `stopListeningOnce`: only while listening; stop, settle on the transcript, translate it unless blank. */
    method StopListeningOnce(recognized: string, autoSpeak: bool, restart: bool, today: string)
      modifies this`screen, this`mic, this`pending, this`effects, limits
      ensures var o := Stopped(old(screen), settings, recognized, autoSpeak, restart, old(limits.Stored()), today);
        screen == o.screen && effects == old(effects) + o.requests
        && pending == old(pending) + Awaited(o.job) && limits.Stored() == o.quota
      ensures mic == if old(screen).listening then old(mic).(silencePending := false) else old(mic)
    {
      if !screen.listening {
        return;
      }
      screen := screen.(listening := false, status := Translating);
      mic := mic.(silencePending := false);
      effects := effects + [StopRecognizer];
      var recognizerText := Trim(recognized);
      var finalTextRaw := if recognizerText == [] then screen.heard else recognizerText;
      var transcript := Trim(finalTextRaw);
      screen := screen.(heard := transcript);
      if transcript == [] {
        screen := screen.(translated := "", status := NoSpeech);
        return;
      }
      PerformTranslation(transcript, autoSpeak, restart, today);
    }

    /** `handleLanguageChangeReTranslation`, run when the "They hear" language changes; it never touches the quota. */
    method HandleLanguageChangeReTranslation()
      modifies this`screen, this`pending, this`effects
      ensures var o := Retranslation(old(screen), settings, limits.Stored());
        screen == o.screen && effects == old(effects) + o.requests && pending == old(pending) + Awaited(o.job)
    {
      var transcript := Trim(screen.heard);
      if transcript == [] {
        return;
      }
      screen := screen.(status := Translating);
      effects := effects + [Translate(transcript, FromCode(settings), ToCode(settings))];
      pending := pending + [Refresh];
    }

    /**
     * `handleAutoResponseTap`, the tap microphone shown in auto-response mode:
     * while listening the silence stop decides; otherwise start a session.
     */
    method HandleAutoResponseTap()
      requires settings.autoResponse
      modifies this`screen, this`mic, this`effects
      ensures old(screen).listening ==> screen == old(screen) && mic == old(mic) && effects == old(effects)
      ensures !old(screen).listening ==>
        screen == ListeningStarted(old(screen)) && mic == old(mic).(autoSession := true, silencePending := false)
        && effects == old(effects) + [StartRecognizer(RecognitionLocale(settings))]
    {
      if screen.listening {
        return;
      }
      mic := mic.(autoSession := true);
      StartListeningOnce();
    }

    /** The hold microphone's first touch, shown outside auto-response mode: listening starts once per press. */
    method PressMic()
      requires !settings.autoResponse
      modifies this`screen, this`mic, this`effects
      ensures old(mic).pressing ==> screen == old(screen) && mic == old(mic) && effects == old(effects)
      ensures !old(mic).pressing ==>
        screen == ListeningStarted(old(screen)) && mic == old(mic).(pressing := true, holdTip := true, silencePending := false)
        && effects == old(effects) + [StartRecognizer(RecognitionLocale(settings))]
    {
      if !mic.pressing {
        mic := mic.(pressing := true);
        mic := mic.(holdTip := true);
        StartListeningOnce();
      }
    }

    /** The hold microphone's release: listening stops once per release, translating and speaking the result. */
    method ReleaseMic(recognized: string, today: string)
      requires !settings.autoResponse
      modifies this`screen, this`mic, this`pending, this`effects, limits
      ensures !old(mic).pressing ==>
        screen == old(screen) && mic == old(mic) && pending == old(pending) && effects == old(effects)
        && limits.Stored() == old(limits.Stored())
      ensures old(mic).pressing ==>
        mic == old(mic).(pressing := false, silencePending := if old(screen).listening then false else old(mic).silencePending)
      ensures old(mic).pressing ==>
        var o := Stopped(old(screen), settings, recognized, true, false, old(limits.Stored()), today);
        screen == o.screen && effects == old(effects) + o.requests
        && pending == old(pending) + Awaited(o.job) && limits.Stored() == o.quota
    {
      if mic.pressing {
        mic := mic.(pressing := false);
        StopListeningOnce(recognized, true, false, today);
      }
    }

    /** The hold tip's timer: the tip fades. */
    method OnHoldTipElapsed()
      modifies this`mic
      ensures mic == old(mic).(holdTip := false)
    {
      mic := mic.(holdTip := false);
    }

    /** A new live transcript: shown trimmed while listening, and in auto-response mode it re-arms the silence stop. */
    method OnTranscriptChanged(newValue: string)
      modifies this`screen, this`mic
      ensures old(screen).listening ==> screen == old(screen).(heard := Trim(newValue))
      ensures !old(screen).listening ==> screen == old(screen)
      ensures mic == old(mic).(silencePending := old(mic).silencePending || (old(screen).listening && settings.autoResponse))
    {
      if screen.listening {
        screen := screen.(heard := Trim(newValue));
        if settings.autoResponse {
          mic := mic.(silencePending := true);
        }
      }
    }

    /** The silence stop firing: a cancelled one does nothing; otherwise stop and speak if still listening in auto-response mode. */
    method OnSilenceElapsed(recognized: string, today: string)
      modifies this`screen, this`mic, this`pending, this`effects, limits
      ensures !old(mic).silencePending || !old(screen).listening || !settings.autoResponse ==>
        screen == old(screen) && pending == old(pending) && effects == old(effects) && limits.Stored() == old(limits.Stored())
      ensures old(mic).silencePending && old(screen).listening && settings.autoResponse ==>
        var o := Stopped(old(screen), settings, recognized, true, false, old(limits.Stored()), today);
        screen == o.screen && effects == old(effects) + o.requests
        && pending == old(pending) + Awaited(o.job) && limits.Stored() == o.quota
      ensures mic == if old(mic).silencePending then old(mic).(silencePending := false) else old(mic)
    {
      if !mic.silencePending {
        return;
      }
      mic := mic.(silencePending := false);
      if screen.listening && settings.autoResponse {
        StopListeningOnce(recognized, true, false, today);
      }
    }

    /** The category picker; the selected phrase index is kept. */
    method SelectCategory(c: PhraseCategory)
      modifies this`selection
      ensures selection == old(selection).(category := c)
    {
      selection := selection.(category := c);
    }

    /** The travel-type picker; the selected phrase index is kept. */
    method SelectSubcategory(s: TravelSubcategory)
      modifies this`selection
      ensures selection == old(selection).(subcategory := s)
    {
      selection := selection.(subcategory := s);
    }

    /** The phrase wheel, which offers the indices of the list on show. */
    method SelectPhrase(index: int)
      requires 0 <= index < |QuickPhrases(tables, selection.category, selection.subcategory)|
      modifies this`selection
      ensures selection == old(selection).(index := index)
    {
      selection := selection.(index := index);
    }

    /** `playQuickPhrase` on the list on show, with the index checked before the charge. */
    method PlayQuickPhrase(today: string)
      modifies this`screen, this`pending, this`effects, limits
      ensures var o := QuickPhrasePlayed(old(screen), settings.languages.they,
                QuickPhrases(tables, selection.category, selection.subcategory), selection.index, old(limits.Stored()), today);
        screen == o.screen && effects == old(effects) + o.requests
        && pending == old(pending) + Awaited(o.job) && limits.Stored() == o.quota
    {
      var phrases := QuickPhrases(tables, selection.category, selection.subcategory);
      if !(0 <= selection.index < |phrases|) {
        return;
      }
      var allowed := limits.ConsumeOneIfAvailable(today);
      if !allowed {
        screen := screen.(limitAlert := true, status := LimitReached);
        return;
      }
      var englishPhrase := phrases[selection.index];
      screen := screen.(heard := englishPhrase, status := TranslatingPhrase, translated := "");
      effects := effects + [Translate(englishPhrase, Some(AzureCode(English)), AzureCode(settings.languages.they))];
      pending := pending + [Phrase];
    }

    /**
     * The completion of the `i`-th awaited translation. A success is shown
     * and, as the request fixed, spoken; a quick phrase is spoken in the
     * "They hear" language of the moment; a failure shows the error. A
     * restart follows only a request that asked for one, and no call site of
     * `stopListeningOnce` in the app does.
     */
    method OnTranslationFinished(i: nat, result: Result<string, TranslatorService.TranslationError>)
      requires i < |pending|
      modifies this`screen, this`mic, this`pending, this`effects
      ensures pending == old(pending[..i] + pending[i + 1..])
      ensures result.Failure? ==>
        screen == old(screen).(translated := "Error: " + result.error.Description(), status := Failed)
        && mic == old(mic) && effects == old(effects)
      ensures result.Success? && old(pending[i]).Refresh? ==>
        screen == old(screen).(translated := result.value, status := Translated)
        && mic == old(mic) && effects == old(effects)
      ensures result.Success? && old(pending[i]).Phrase? ==>
        screen == old(screen).(translated := result.value, status := PhraseTranslated) && mic == old(mic)
        && effects == old(effects) + [Speak(result.value, TtsCode(settings.languages.they), DefaultRate)]
      ensures result.Success? && old(pending[i]).Spoken? ==>
        var job := old(pending[i]);
        var shown := old(screen).(translated := result.value, status := Translated);
        var spoken := old(effects) + (if job.autoSpeak then [Speak(result.value, job.ttsCode, DefaultRate)] else []);
        if job.restart && old(mic).autoSession && settings.autoResponse then
          screen == ListeningStarted(shown) && mic == old(mic).(silencePending := false)
          && effects == spoken + [StartRecognizer(RecognitionLocale(settings))]
        else
          screen == shown && mic == old(mic) && effects == spoken
    {
      var job := pending[i];
      pending := pending[..i] + pending[i + 1..];
      match result {
        case Failure(error) =>
          screen := screen.(translated := "Error: " + error.Description(), status := Failed);
        case Success(translated) =>
          match job {
            case Refresh =>
              screen := screen.(translated := translated, status := Translated);
            case Phrase =>
              screen := screen.(translated := translated, status := PhraseTranslated);
              effects := effects + [Speak(translated, TtsCode(settings.languages.they), DefaultRate)];
            case Spoken(autoSpeak, restart, ttsCode) =>
              screen := screen.(translated := translated, status := Translated);
              if autoSpeak {
                effects := effects + [Speak(translated, ttsCode, DefaultRate)];
              }
              if restart && mic.autoSession && settings.autoResponse {
                StartListeningOnce();
              }
          }
      }
    }
  }
}
