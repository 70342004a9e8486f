/**
 * The value types of translator/Translator.kt: the translation provider enum and
 * its key lookup, the provider entry shown in the selection panel, a translation
 * language, and the closed set of translation results.
 */
module TranslationTypes {
  import opened Errors
  import opened Wrappers

  /** `TranslationProviderType`, in declaration order. */
  datatype ProviderType = GoogleMLKit | GoogleTranslateApp | OCROnly {
    function Index(): int
    {
      match this
      case GoogleMLKit => 1
      case GoogleTranslateApp => 2
      case OCROnly => 3
    }

    function Key(): string
    {
      match this
      case GoogleMLKit => "google_ml_kit"
      case GoogleTranslateApp => "google_translate_app"
      case OCROnly => "ocr_only"
    }

    /** The string resource naming the provider in the UI. */
    function NameRes(): string
    {
      match this
      case GoogleMLKit => "@string/translation_provider_google_ml_kit"
      case GoogleTranslateApp => "@string/translation_provider_google_translate_app"
      case OCROnly => "@string/translation_provider_none"
    }

    /** Providers that do not translate inside the app. */
    predicate NonTranslation()
    {
      this != GoogleMLKit
    }
  }

  /** `TranslationProviderType.values()`. */
  const ALL_PROVIDER_TYPES: seq<ProviderType> := [GoogleMLKit, GoogleTranslateApp, OCROnly]

  const DEFAULT_TRANSLATION_PROVIDER: ProviderType := GoogleMLKit

  /** The first of `types` whose key is `key`, if any (`firstOrNull`). */
  function FirstWithKey(types: seq<ProviderType>, key: string): (r: Option<ProviderType>)
    ensures r.Some? ==> r.value in types && r.value.Key() == key
    ensures r.None? ==> forall t :: t in types ==> t.Key() != key
  {
    if types == [] then None
    else if types[0].Key() == key then Some(types[0])
    else FirstWithKey(types[1..], key)
  }

  /** `TranslationProviderType.fromKey`: the type with this key, else the default provider. */
  function FromKey(key: string): (t: ProviderType)
    ensures (exists k: ProviderType :: k.Key() == key) ==> t.Key() == key
    ensures (forall k: ProviderType :: k.Key() != key) ==> t == DEFAULT_TRANSLATION_PROVIDER
  {
    FirstWithKey(ALL_PROVIDER_TYPES, key).GetOr(DEFAULT_TRANSLATION_PROVIDER)
  }

  /** The keys are distinct, so every type is found again from its key. */
  lemma FromKeyOfKey(t: ProviderType)
    ensures FromKey(t.Key()) == t
  {
  }

  /** `values()` lists every type once, by increasing index, so `sortedBy { it.index }` keeps it. */
  lemma AllProviderTypesInIndexOrder()
    ensures forall t: ProviderType :: t in ALL_PROVIDER_TYPES
    ensures forall i, j :: 0 <= i < j < |ALL_PROVIDER_TYPES| ==>
      ALL_PROVIDER_TYPES[i].Index() < ALL_PROVIDER_TYPES[j].Index()
  {
    forall t: ProviderType ensures t in ALL_PROVIDER_TYPES {
      match t
      case GoogleMLKit => assert ALL_PROVIDER_TYPES[0] == t;
      case GoogleTranslateApp => assert ALL_PROVIDER_TYPES[1] == t;
      case OCROnly => assert ALL_PROVIDER_TYPES[2] == t;
    }
  }

  /** Exactly the Google Translate app and the OCR-only mode do not translate in the app. */
  lemma NonTranslationProviders(t: ProviderType)
    ensures t.NonTranslation() <==> t == GoogleTranslateApp || t == OCROnly
  {
  }

  /** `TranslationProvider`, a row of the provider list. */
  datatype TranslationProvider = TranslationProvider(
    key: string,
    displayName: string,
    nonTranslation: bool,
    providerType: ProviderType,
    selected: bool)

  /** `TranslationProvider.fromType`; the display name is the provider's string resource. */
  function FromType(t: ProviderType, selected: bool): (p: TranslationProvider)
    ensures p.providerType == t && p.key == t.Key() && p.nonTranslation == t.NonTranslation()
    ensures p.selected == selected && p.displayName == t.NameRes()
    ensures FromKey(p.key) == t
  {
    FromKeyOfKey(t);
    TranslationProvider(t.Key(), t.NameRes(), t.NonTranslation(), t, selected)
  }

  datatype TranslationLanguage = TranslationLanguage(code: string, displayName: string, selected: bool)

  /** `TranslationResult`: exactly five variants. */
  datatype TranslationResult =
    | TranslatedResult(result: string, providerType: ProviderType)
    | TranslationFailed(error: Failure)
    | SourceLangNotSupport(providerType: ProviderType)
    | OCROnlyResult
    | OuterTranslatorLaunched
}
