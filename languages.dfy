/**
 * The languages the app offers, each with the code sent to the translation
 * service, the voice tag passed to speech synthesis and the locale passed to
 * speech recognition.
 */
module Languages {

  datatype Language =
    English
    | Spanish
    | French
    | German
    | Portuguese
    | Italian
    | Japanese
    | Korean
    | ChineseSimplified
    | Vietnamese
    | Russian
    | Arabic
    | Hebrew
    | Hindi
    | Farsi
    | Punjabi
    | Turkish
    | Urdu

  /** The name shown in the pickers. */
  function DisplayName(l: Language): string {
    match l
    case English => "English"
    case Spanish => "Spanish"
    case French => "French"
    case German => "German"
    case Portuguese => "Portuguese"
    case Italian => "Italian"
    case Japanese => "Japanese"
    case Korean => "Korean"
    case ChineseSimplified => "Chinese (Simplified)"
    case Vietnamese => "Vietnamese"
    case Russian => "Russian"
    case Arabic => "Arabic"
    case Hebrew => "Hebrew"
    case Hindi => "Hindi"
    case Farsi => "Farsi (Persian)"
    case Punjabi => "Punjabi"
    case Turkish => "Turkish"
    case Urdu => "Urdu"
  }

  /** The code of the language for the translation service. */
  function AzureCode(l: Language): string {
    match l
    case English => "en"
    case Spanish => "es"
    case French => "fr"
    case German => "de"
    case Portuguese => "pt"
    case Italian => "it"
    case Japanese => "ja"
    case Korean => "ko"
    case ChineseSimplified => "zh-Hans"
    case Vietnamese => "vi"
    case Russian => "ru"
    case Arabic => "ar"
    case Hebrew => "he"
    case Hindi => "hi"
    case Farsi => "fa"
    case Punjabi => "pa"
    case Turkish => "tr"
    case Urdu => "ur"
  }

  /** The voice tag for speech synthesis. */
  function TtsCode(l: Language): string {
    match l
    case English => "en-US"
    case Spanish => "es-ES"
    case French => "fr-FR"
    case German => "de-DE"
    case Portuguese => "pt-BR"
    case Italian => "it-IT"
    case Japanese => "ja-JP"
    case Korean => "ko-KR"
    case ChineseSimplified => "zh-CN"
    case Vietnamese => "vi-VN"
    case Russian => "ru-RU"
    case Arabic => "ar-001"
    case Hebrew => "he-IL"
    case Hindi => "hi-IN"
    case Farsi => "fa-IR"
    case Punjabi => "pa-IN"
    case Turkish => "tr-TR"
    case Urdu => "ur-IN"
  }

  /** The locale for speech recognition. */
  function LocaleIdentifier(l: Language): string {
    match l
    case English => "en_US"
    case Spanish => "es_ES"
    case French => "fr_FR"
    case German => "de_DE"
    case Portuguese => "pt_BR"
    case Italian => "it_IT"
    case Japanese => "ja_JP"
    case Korean => "ko_KR"
    case ChineseSimplified => "zh_CN"
    case Vietnamese => "vi_VN"
    case Russian => "ru_RU"
    case Arabic => "ar_SA"
    case Hebrew => "he_IL"
    case Hindi => "hi_IN"
    case Farsi => "fa_IR"
    case Punjabi => "pa_IN"
    case Turkish => "tr_TR"
    case Urdu => "ur_PK"
  }
}
