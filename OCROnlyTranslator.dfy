/** translator/OCROnlyTranslator.kt: the provider that shows the recognized text without translating it. */
module OCROnlyTranslator {
  import opened Wrappers
  import opened TranslationTypes
  import opened Translator

  function Type(): (t: ProviderType)
    ensures t.NonTranslation() && GetTranslator(t) == OCROnlyObject
  {
    OCROnly
  }

  /** The hint shown in the selection panel instead of a language list; always present. */
  function TranslationHint(): (hint: Option<string>)
    ensures hint.Some? && hint != DEFAULT_TRANSLATION_HINT
  {
    Some("@string/msg_ocr_only_mode_hint")
  }

  /** Every text, in every source language, yields the recognition-only result. */
  function Translate(text: string, sourceLangCode: string): (r: TranslationResult)
    ensures r.OCROnlyResult?
  {
    OCROnlyResult
  }

  /** The inherited members: a ready environment and no languages, so no OCR language is supported. */
  function CheckEnvironment(): (ready: bool)
    ensures ready
  {
    DEFAULT_ENVIRONMENT_READY
  }

  function SupportedLanguages(): (langs: seq<TranslationLanguage>)
    ensures forall ocrLang :: !IsLangSupport(langs, ocrLang)
  {
    DEFAULT_SUPPORTED_LANGUAGES
  }
}
