/**
 * The `Translator` interface of translator/Translator.kt: the provider objects
 * it dispatches to, and the defaults every provider inherits unless it
 * overrides them (no hint, a ready environment, no languages). The language
 * support test and the target-language fallback are shared by all providers.
 */
module Translator {
  import opened Wrappers
  import opened LangTag
  import opened TranslationTypes
  import opened Prefs
  import Constants

  /** The three provider singletons. */
  datatype TranslatorObject = GoogleMLKitObject | GoogleTranslateAppObject | OCROnlyObject {
    function Type(): ProviderType
    {
      match this
      case GoogleMLKitObject => GoogleMLKit
      case GoogleTranslateAppObject => GoogleTranslateApp
      case OCROnlyObject => OCROnly
    }
  }

  /** `getTranslator`: the provider object of each type, total over the types. */
  function GetTranslator(t: ProviderType): (obj: TranslatorObject)
    ensures obj.Type() == t
  {
    match t
    case GoogleMLKit => GoogleMLKitObject
    case GoogleTranslateApp => GoogleTranslateAppObject
    case OCROnly => OCROnlyObject
  }

  /** Different types give different objects, and each object is reached from its type. */
  lemma GetTranslatorBijective(obj: TranslatorObject, t1: ProviderType, t2: ProviderType)
    ensures GetTranslator(obj.Type()) == obj
    ensures GetTranslator(t1) == GetTranslator(t2) ==> t1 == t2
  {
  }

  /** The translator chosen by the stored provider key (`getTranslator()` with its default argument). */
  function StoredTranslator(storedKey: string): (obj: TranslatorObject)
    ensures obj.Type() == FromKey(storedKey)
  {
    GetTranslator(FromKey(storedKey))
  }

  /** The inherited `translationHint`. */
  const DEFAULT_TRANSLATION_HINT: Option<string> := None
  /** The inherited `checkEnvironment`. */
  const DEFAULT_ENVIRONMENT_READY: bool := true
  /** The inherited `supportedLanguages`. */
  const DEFAULT_SUPPORTED_LANGUAGES: seq<TranslationLanguage> := []

  /** `isLangSupport`: some supported language has the OCR language's primary subtag. */
  function IsLangSupport(supported: seq<TranslationLanguage>, ocrLang: string): (r: bool)
    ensures r <==> exists i :: 0 <= i < |supported| && FirstPart(supported[i].code) == FirstPart(ocrLang)
  {
    if supported == [] then false
    else if FirstPart(supported[0].code) == FirstPart(ocrLang) then true
    else
      var r := IsLangSupport(supported[1..], ocrLang);
      assert forall i :: 1 <= i < |supported| ==> supported[i] == supported[1..][i - 1];
      r
  }

  /** A provider with the default, empty language list supports no OCR language. */
  lemma DefaultSupportsNothing(ocrLang: string)
    ensures !IsLangSupport(DEFAULT_SUPPORTED_LANGUAGES, ocrLang)
  {
  }

  /** A regional variant of a language is supported exactly when the language is. */
  lemma LangSupportIgnoresRegion(supported: seq<TranslationLanguage>, lang: string, region: string)
    ensures IsLangSupport(supported, lang + "-" + region) == IsLangSupport(supported, lang)
  {
    assert lang + "-" + region == lang + ("-" + region);
    FirstPartOfTagged(lang, "-" + region);
  }

  /** Anything appended after a '-' does not change the primary subtag. */
  lemma {:induction false} FirstPartOfTagged(a: string, b: string)
    requires b != [] && b[0] == '-'
    ensures FirstPart(a + b) == FirstPart(a)
  {
    if a == [] {
      assert a + b == b;
    } else if a[0] != '-' {
      assert (a + b)[1..] == a[1..] + b;
      FirstPartOfTagged(a[1..], b);
    }
  }

  /** The target language kept by `selectedLangCode`: the stored one if listed, else "en". */
  function ResolvedLangCode(stored: string, supported: seq<string>): (code: string)
    ensures stored in supported ==> code == stored
    ensures stored !in supported ==> code == Constants.DEFAULT_TRANSLATION_LANG
  {
    if stored in supported then stored else Constants.DEFAULT_TRANSLATION_LANG
  }

  /** Resolving twice is resolving once: after a fallback the next call changes nothing. */
  lemma ResolvedLangCodeIdempotent(stored: string, supported: seq<string>)
    ensures ResolvedLangCode(ResolvedLangCode(stored, supported), supported) == ResolvedLangCode(stored, supported)
  {
  }

  /**
   * `selectedLangCode`: the stored target language if the provider lists it;
   * otherwise the stored value is overwritten with "en", which is returned.
   */
  method SelectedLangCode(pref: AppPref, supported: seq<string>) returns (code: string)
    modifies pref
    ensures code == ResolvedLangCode(old(pref.selectedTranslationLang), supported)
    ensures pref.Values() == old(pref.Values()).(selectedTranslationLang := code)
  {
    var stored := pref.selectedTranslationLang;
    if stored in supported {
      code := stored;
    } else {
      pref.selectedTranslationLang := Constants.DEFAULT_TRANSLATION_LANG;
      code := Constants.DEFAULT_TRANSLATION_LANG;
    }
  }
}
