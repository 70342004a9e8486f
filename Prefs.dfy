/**
 * pref/AppPref.kt: the app's persistent choices, one mutable object whose
 * properties the state manager, the repositories and the view models read and
 * assign. Each property is a field, starting at its declared default.
 */
module Prefs {
  import opened Wrappers
  import opened Graphics
  import opened Recognition
  import opened TranslationTypes
  import Constants

  const DEFAULT_OCR_PROVIDER: OcrProviderType := GoogleMLKitOcr

  /** The values of all properties at one moment. */
  datatype PrefValues = PrefValues(
    selectedOCRProvider: OcrProviderType,
    selectedOCRLang: string,
    selectedTranslationProvider: string,
    selectedTranslationLang: string,
    lastSelectionArea: Option<Rect>,
    lastVersionHistoryShownVersion: Option<string>,
    lastReadmeShownVersion: Option<string>,
    lastMainBarPosition: Point)

  class AppPref {
    var selectedOCRProvider: OcrProviderType
    var selectedOCRLang: string
    /** The stored key of the translation provider; it may name no provider. */
    var selectedTranslationProvider: string
    var selectedTranslationLang: string
    var lastSelectionArea: Option<Rect>
    var lastVersionHistoryShownVersion: Option<string>
    var lastReadmeShownVersion: Option<string>
    var lastMainBarPosition: Point

    function Values(): PrefValues
      reads this
    {
      PrefValues(selectedOCRProvider, selectedOCRLang, selectedTranslationProvider, selectedTranslationLang,
        lastSelectionArea, lastVersionHistoryShownVersion, lastReadmeShownVersion, lastMainBarPosition)
    }

    /** A fresh installation: every property at its default. */
    constructor ()
      ensures selectedOCRProvider == DEFAULT_OCR_PROVIDER
      ensures selectedOCRLang == Constants.DEFAULT_OCR_LANG
      ensures selectedTranslationProvider == DEFAULT_TRANSLATION_PROVIDER.Key()
      ensures selectedTranslationLang == Constants.DEFAULT_TRANSLATION_LANG
      ensures lastSelectionArea == None
      ensures lastVersionHistoryShownVersion == None && lastReadmeShownVersion == None
      ensures lastMainBarPosition == Point(0, 0)
    {
      selectedOCRProvider := DEFAULT_OCR_PROVIDER;
      selectedOCRLang := Constants.DEFAULT_OCR_LANG;
      selectedTranslationProvider := DEFAULT_TRANSLATION_PROVIDER.Key();
      selectedTranslationLang := Constants.DEFAULT_TRANSLATION_LANG;
      lastSelectionArea := None;
      lastVersionHistoryShownVersion := None;
      lastReadmeShownVersion := None;
      lastMainBarPosition := Point(0, 0);
    }
  }
}
