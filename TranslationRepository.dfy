/**
 * repo/TranslationRepository.kt: the provider list of the selection panel, the
 * stored provider and target language, and the per-provider language list and
 * hint. Every key is resolved through `fromKey`, so an unknown key means the
 * default provider.
 */
module TranslationRepository {
  import opened Wrappers
  import opened TranslationTypes
  import opened Translator
  import opened Prefs
  import OCROnlyTranslator
  import GoogleTranslateAppTranslator
  import GoogleMLKitTranslator

  /** `getAllProviders`: every type once, by index, selected iff its key is the stored key. */
  function GetAllProviders(storedKey: string): (r: seq<TranslationProvider>)
    ensures |r| == |ALL_PROVIDER_TYPES|
    ensures forall i :: 0 <= i < |r| ==> r[i].providerType == ALL_PROVIDER_TYPES[i]
    ensures forall i, j :: 0 <= i < j < |r| ==> r[i].providerType.Index() < r[j].providerType.Index()
    ensures forall i :: 0 <= i < |r| ==> r[i] == FromType(r[i].providerType, r[i].key == storedKey)
  {
    AllProviderTypesInIndexOrder();
    var r := seq(|ALL_PROVIDER_TYPES|, i requires 0 <= i < |ALL_PROVIDER_TYPES| =>
      FromType(ALL_PROVIDER_TYPES[i], ALL_PROVIDER_TYPES[i].Key() == storedKey));
    r
  }

  /** Keys are distinct, so at most one provider is selected, and one is when the stored key is a real key. */
  lemma AtMostOneSelected(storedKey: string)
    ensures forall i, j :: 0 <= i < j < |GetAllProviders(storedKey)| ==>
      !(GetAllProviders(storedKey)[i].selected && GetAllProviders(storedKey)[j].selected)
    ensures (exists i :: 0 <= i < |GetAllProviders(storedKey)| && GetAllProviders(storedKey)[i].selected)
      <==> FromKey(storedKey).Key() == storedKey
  {
    var r := GetAllProviders(storedKey);
    forall i, j | 0 <= i < j < |r| ensures !(r[i].selected && r[j].selected) {
      assert r[i].providerType != r[j].providerType;
    }
    if FromKey(storedKey).Key() == storedKey {
      AllProviderTypesInIndexOrder();
      var t := FromKey(storedKey);
      assert t in ALL_PROVIDER_TYPES;
      var i :| 0 <= i < |ALL_PROVIDER_TYPES| && ALL_PROVIDER_TYPES[i] == t;
      assert r[i].selected;
    }
  }

  /** `getSelectedProvider`: the provider of the stored key, marked selected. */
  function GetSelectedProvider(storedKey: string): (p: TranslationProvider)
    ensures p.selected && p.providerType == FromKey(storedKey)
  {
    FromType(FromKey(storedKey), true)
  }

  /**
   * `setSelectedProvider`: stores the key of the provider `key` resolves to
   * (never an unknown key) and returns that provider, as the next
   * `getSelectedProvider` does.
   */
  method SetSelectedProvider(pref: AppPref, key: string) returns (p: TranslationProvider)
    modifies pref
    ensures pref.Values() == old(pref.Values()).(selectedTranslationProvider := FromKey(key).Key())
    ensures p == FromType(FromKey(key), true)
    ensures GetSelectedProvider(pref.selectedTranslationProvider) == p
  {
    var t := FromKey(key);
    pref.selectedTranslationProvider := t.Key();
    FromKeyOfKey(t);
    p := FromType(t, true);
  }

  /** `setSelectedTranslationLang` */
  method SetSelectedTranslationLang(pref: AppPref, langCode: string)
    modifies pref
    ensures pref.Values() == old(pref.Values()).(selectedTranslationLang := langCode)
  {
    pref.selectedTranslationLang := langCode;
  }

  /**
   * `getTranslationLanguageList`: the ML Kit translator's languages, or the
   * inherited empty list for the other providers.
   */
  method GetTranslationLanguageList(providerKey: string, mlKit: GoogleMLKitTranslator.GoogleMLKitTranslator, pref: AppPref)
    returns (langs: seq<TranslationLanguage>)
    requires mlKit.Valid()
    modifies pref
    ensures FromKey(providerKey) == GoogleMLKit ==>
      langs == GoogleMLKitTranslator.LanguageList(mlKit.codes, mlKit.names,
        ResolvedLangCode(old(pref.selectedTranslationLang), mlKit.codes))
      && pref.Values() == old(pref.Values()).(selectedTranslationLang :=
        ResolvedLangCode(old(pref.selectedTranslationLang), mlKit.codes))
    ensures FromKey(providerKey).NonTranslation() ==> langs == [] && unchanged(pref)
  {
    match GetTranslator(FromKey(providerKey))
    case GoogleMLKitObject =>
      langs := mlKit.SupportedLanguages(pref);
    case GoogleTranslateAppObject =>
      langs := GoogleTranslateAppTranslator.SupportedLanguages();
    case OCROnlyObject =>
      langs := OCROnlyTranslator.SupportedLanguages();
  }

  /** `getTranslationHint`: a hint exactly for the providers that do not translate in the app. */
  function GetTranslationHint(providerKey: string): (hint: Option<string>)
    ensures hint.Some? <==> FromKey(providerKey).NonTranslation()
    ensures FromKey(providerKey) == GoogleMLKit ==> hint == DEFAULT_TRANSLATION_HINT
    ensures FromKey(providerKey) == GoogleTranslateApp ==> hint == GoogleTranslateAppTranslator.TranslationHint()
    ensures FromKey(providerKey) == OCROnly ==> hint == OCROnlyTranslator.TranslationHint()
  {
    match GetTranslator(FromKey(providerKey))
    case GoogleMLKitObject => DEFAULT_TRANSLATION_HINT
    case GoogleTranslateAppObject => GoogleTranslateAppTranslator.TranslationHint()
    case OCROnlyObject => OCROnlyTranslator.TranslationHint()
  }
}
