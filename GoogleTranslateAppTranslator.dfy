/**
 * translator/GoogleTranslateAppTranslator.kt: the provider that hands the
 * recognized text to the Google Translate app. Whether that app is installed,
 * and launching it, are outside the model: the first is a parameter, the
 * second is not represented.
 */
module GoogleTranslateAppTranslator {
  import opened Wrappers
  import opened TranslationTypes
  import opened Translator

  function Type(): (t: ProviderType)
    ensures t.NonTranslation() && GetTranslator(t) == GoogleTranslateAppObject
  {
    GoogleTranslateApp
  }

  /** The hint asking the user to pick the language in the other app; always present. */
  function TranslationHint(): (hint: Option<string>)
    ensures hint.Some? && hint != DEFAULT_TRANSLATION_HINT
  {
    Some("@string/msg_select_lang_in_google_translate")
  }

  /** `checkEnvironment`: ready exactly when the Google Translate app is installed. */
  function CheckEnvironment(translateAppInstalled: bool): (ready: bool)
    ensures ready <==> translateAppInstalled
  {
    translateAppInstalled
  }

  /** Every text leaves the app for the outer translator. */
  function Translate(text: string, sourceLangCode: string): (r: TranslationResult)
    ensures r.OuterTranslatorLaunched?
  {
    OuterTranslatorLaunched
  }

  /** The inherited empty language list: no OCR language is supported. */
  function SupportedLanguages(): (langs: seq<TranslationLanguage>)
    ensures forall ocrLang :: !IsLangSupport(langs, ocrLang)
  {
    DEFAULT_SUPPORTED_LANGUAGES
  }
}
