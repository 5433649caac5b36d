/**
 * The watch's walkie-talkie screen: a language button that cycles through
 * five names, and a microphone button that toggles a listening flag and
 * shows a fixed sample exchange when listening stops.
 */
module Walkie {
  import opened Wrappers

  /** The names the language buttons cycle through, in order. */
  const Options: seq<string> := ["English", "Spanish", "French", "Portuguese", "Turkish"]

  /** The heard text shown when listening stops. */
  const SampleHeard: string := "Hola, ¿cómo estás?"
  /** The translation shown when listening stops. */
  const SampleTranslation: string := "Hi, how are you?"

  /** `firstIndex(of:)`, searching from position `from`. */
  function FirstIndexFrom<T(==)>(options: seq<T>, s: T, from: nat): (r: Option<nat>)
    requires from <= |options|
    ensures r.Some? ==> from <= r.value < |options| && options[r.value] == s
    ensures r.Some? ==> forall j :: from <= j < r.value ==> options[j] != s
    ensures r.None? ==> forall j :: from <= j < |options| ==> options[j] != s
    decreases |options| - from
  {
    if from == |options| then None
    else if options[from] == s then Some(from)
    else FirstIndexFrom(options, s, from + 1)
  }

  /** `firstIndex(of:)`: the first position holding `s`, or none. */
  function FirstIndex<T(==)>(options: seq<T>, s: T): (r: Option<nat>)
    ensures r.Some? ==> r.value < |options| && options[r.value] == s && forall j :: 0 <= j < r.value ==> options[j] != s
    ensures r.None? <==> s !in options
  {
    FirstIndexFrom(options, s, 0)
  }

  /** The cycling rule of `nextLanguage(after:)` over any non-empty list of options. */
  function NextIn<T(==)>(options: seq<T>, current: T): T
    requires options != []
  {
    match FirstIndex(options, current)
    case None => options[0]
    case Some(index) =>
      var next := index + 1;
      if next < |options| then options[next] else options[0]
  }

  /** `nextLanguage(after:)`: the option after `current`, wrapping round; "English" for a name not listed. */
  function NextLanguage(current: string): string {
    NextIn(Options, current)
  }

  predicate Distinct<T(==)>(options: seq<T>) {
    forall i, j :: 0 <= i < j < |options| ==> options[i] != options[j]
  }

  /** The five options are different names. */
  lemma OptionsDistinct()
    ensures Distinct(Options)
  {
  }

  /** The position after `i` round a cycle of `m` positions. */
  function Succ(m: nat, i: nat): nat {
    if i + 1 < m then i + 1 else 0
  }

  /** `Succ` applied `n` times. */
  function Advanced(m: nat, i: nat, n: nat): nat {
    if n == 0 then i else Succ(m, Advanced(m, i, n - 1))
  }

  /** Among distinct options, the one after the option at `i` is the one at the next position round the cycle. */
  lemma NextOfOption<T>(options: seq<T>, i: nat)
    requires Distinct(options) && i < |options|
    ensures NextIn(options, options[i]) == options[Succ(|options|, i)]
  {
    var r := FirstIndex(options, options[i]);
    assert r.Some?;
  }

  /**
   * The next language is always one of the options; a name not listed gives
   * "English"; a listed one gives the next, and "Turkish" wraps to "English".
   */
  lemma NextLanguageShape(current: string)
    ensures NextLanguage(current) in Options
    ensures current !in Options ==> NextLanguage(current) == "English"
    ensures forall i :: 0 <= i < |Options| - 1 && current == Options[i] ==> NextLanguage(current) == Options[i + 1]
    ensures current == "Turkish" ==> NextLanguage(current) == "English"
  {
    OptionsDistinct();
    if current in Options {
      var i :| 0 <= i < |Options| && Options[i] == current;
      NextOfOption(Options, i);
    }
  }

  /** The rule applied `n` times. */
  function CycledIn<T(==)>(options: seq<T>, current: T, n: nat): T
    requires options != []
  {
    if n == 0 then current else NextIn(options, CycledIn(options, current, n - 1))
  }

  /** `n` presses of a language button. */
  function Cycled(current: string, n: nat): string {
    CycledIn(Options, current, n)
  }

  /** Among distinct options, `n` presses move `n` positions round the cycle. */
  lemma {:induction false} CycledMoves<T>(options: seq<T>, i: nat, n: nat)
    requires Distinct(options) && i < |options|
    ensures Advanced(|options|, i, n) < |options|
    ensures CycledIn(options, options[i], n) == options[Advanced(|options|, i, n)]
  {
    if n > 0 {
      CycledMoves(options, i, n - 1);
      NextOfOption(options, Advanced(|options|, i, n - 1));
    }
  }

  lemma FiveAdvancesReturn(i: nat)
    requires i < 5
    ensures Advanced(5, i, 5) == i
  {
    assert Advanced(5, i, 1) == Succ(5, i);
    assert Advanced(5, i, 2) == Succ(5, Succ(5, i));
    assert Advanced(5, i, 3) == Succ(5, Succ(5, Succ(5, i)));
    assert Advanced(5, i, 4) == Succ(5, Succ(5, Succ(5, Succ(5, i))));
  }

  /** Pressing a language button five times returns to the language it started on. */
  lemma FiveStepsReturn(i: nat)
    requires i < |Options|
    ensures Cycled(Options[i], 5) == Options[i]
  {
    OptionsDistinct();
    CycledMoves(Options, i, 5);
    FiveAdvancesReturn(i);
  }

  class WalkieScreen {
    var youLanguage: string
    var themLanguage: string
    var lastHeard: string
    var lastTranslation: string
    var isListening: bool

    constructor ()
      ensures youLanguage == "English" && themLanguage == "Spanish"
      ensures lastHeard == [] && lastTranslation == [] && !isListening
    {
      youLanguage := "English";
      themLanguage := "Spanish";
      lastHeard := "";
      lastTranslation := "";
      isListening := false;
    }

    /** The microphone button: start listening with the texts cleared, or stop and show the sample exchange. */
    method TapMic()
      modifies this`isListening, this`lastHeard, this`lastTranslation
      ensures isListening == !old(isListening)
      ensures old(isListening) ==> lastHeard == SampleHeard && lastTranslation == SampleTranslation
      ensures !old(isListening) ==> lastHeard == [] && lastTranslation == []
    {
      if isListening {
        isListening := false;
        lastHeard := SampleHeard;
        lastTranslation := SampleTranslation;
      } else {
        isListening := true;
        lastHeard := "";
        lastTranslation := "";
      }
    }

    /** The "you" language button. */
    method CycleYouLanguage()
      modifies this`youLanguage
      ensures youLanguage == NextLanguage(old(youLanguage))
    {
      youLanguage := NextLanguage(youLanguage);
    }

    /** The "them" language button. */
    method CycleThemLanguage()
      modifies this`themLanguage
      ensures themLanguage == NextLanguage(old(themLanguage))
    {
      themLanguage := NextLanguage(themLanguage);
    }
  }
}
