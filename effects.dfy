/**
 * The calls the screens make into collaborators whose work is not modelled:
 * the speech recognizer, the speech synthesizer and the translation service.
 * Each screen appends the calls it makes to a log, in order, so that "no
 * translation was requested" or "the segment at the play index was spoken"
 * can be stated about it.
 */
module Effects {
  import opened Wrappers

  /** A speaking rate: the synthesizer's default, or a rate in hundredths (0.50 is `Rate(50)`). */
  datatype SpeechRate = DefaultRate | Rate(hundredths: nat)

  datatype Effect =
    | Translate(text: string, from: Option<string>, to: string)
    | Speak(text: string, languageCode: string, rate: SpeechRate)
    | PauseSpeech
    | ResumeSpeech
    | StopSpeech
    | StartRecognizer(localeIdentifier: string)
    | StopRecognizer
    | ResetRecognizer
    | CopyToClipboard(text: string)

  /** The number of translation requests in a log. */
  function TranslateCount(log: seq<Effect>): (n: nat)
    ensures n <= |log|
  {
    if log == [] then 0
    else TranslateCount(log[..|log| - 1]) + (if log[|log| - 1].Translate? then 1 else 0)
  }
}
