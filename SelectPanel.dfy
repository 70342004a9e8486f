/**
 * floatings/translationSelectPanel/TranslationSelectPanelViewModel.kt: the
 * panel where the user picks the OCR language, the translation provider and
 * the target language. Each handler reassigns the panel's observable lists,
 * each new list a `map` over the previous one; the dialogs and the model
 * download become inputs.
 */
module TranslationSelectPanel {
  import opened Wrappers
  import opened Errors
  import opened LangTag
  import opened Recognition
  import opened TranslationTypes
  import opened Translator
  import opened Prefs
  import TranslationRepository
  import GoogleMLKitTranslator

  /** An OCR language row; `recognizer` is the language's engine. */
  datatype OCRLangItem = OCRLangItem(
    code: string,
    displayName: string,
    selected: bool,
    showDownloadIcon: bool,
    unrecommended: bool,
    ocrLang: RecognitionLanguage)
  {
    function Recognizer(): OcrProviderType { ocrLang.recognizer }
  }

  /** A target-language row. */
  datatype TranslateLangItem = TranslateLangItem(code: string, displayName: string, selected: bool)

  const MSG_PROVIDER_DOES_NOT_SUPPORT_THE_OCR_LANG: string :=
    "@string/msg_translator_provider_does_not_support_the_ocr_lang"
  const MSG_DOWNLOAD_FAILED_UNKNOWN: string := "Download OCR model failed with unknown error"
  const MSG_DOWNLOAD_FAILED_PREFIX: string := "Download OCR model failed: "

  /** The row of one catalog language: a download icon exactly when its model is missing. */
  function OCRLangItemOf(lang: RecognitionLanguage): OCRLangItem
  {
    OCRLangItem(lang.code, lang.displayName, lang.selected, !lang.downloaded, lang.unrecommended, lang)
  }

  /** The OCR rows `load` builds, one per catalog language, in catalog order. */
  function OCRLangItems(langs: seq<RecognitionLanguage>): (r: seq<OCRLangItem>)
    ensures |r| == |langs|
    ensures forall i :: 0 <= i < |r| ==>
      r[i].code == langs[i].code && r[i].displayName == langs[i].displayName
      && r[i].selected == langs[i].selected && r[i].unrecommended == langs[i].unrecommended
      && (r[i].showDownloadIcon <==> !langs[i].downloaded) && r[i].ocrLang == langs[i]
  {
    if langs == [] then [] else [OCRLangItemOf(langs[0])] + OCRLangItems(langs[1..])
  }

  /** The catalog can be read back from the rows, so no language is lost or reordered. */
  lemma {:induction false} OCRLangItemsKeepCatalog(langs: seq<RecognitionLanguage>)
    ensures CatalogOf(OCRLangItems(langs)) == langs
  {
    if langs != [] {
      OCRLangItemsKeepCatalog(langs[1..]);
      assert OCRLangItems(langs) == [OCRLangItemOf(langs[0])] + OCRLangItems(langs[1..]);
    }
  }

  function CatalogOf(items: seq<OCRLangItem>): seq<RecognitionLanguage>
  {
    if items == [] then [] else [items[0].ocrLang] + CatalogOf(items[1..])
  }

  /** The target-language rows, one per language, in order. */
  function TranslateLangItems(langs: seq<TranslationLanguage>): (r: seq<TranslateLangItem>)
    ensures |r| == |langs|
    ensures forall i :: 0 <= i < |r| ==>
      r[i] == TranslateLangItem(langs[i].code, langs[i].displayName, langs[i].selected)
  {
    if langs == [] then [] else [TranslateLangItem(langs[0].code, langs[0].displayName, langs[0].selected)] + TranslateLangItems(langs[1..])
  }

  /** What the panel shows for the translation part: a hint and the target-language rows. */
  datatype TranslationView = TranslationView(hint: Option<string>, items: seq<TranslateLangItem>)

  /**
   * `loadTranslationLanguageList` once the provider's languages, its hint and
   * the selected OCR language are known.
   */
  function TranslationViewOf(langs: seq<TranslationLanguage>, providerHint: Option<string>, ocrLang: string): (v: TranslationView)
    ensures langs == [] ==> v == TranslationView(providerHint, [])
    ensures langs != [] && IsLangSupport(langs, ocrLang) ==> v == TranslationView(None, TranslateLangItems(langs))
    ensures langs != [] && !IsLangSupport(langs, ocrLang) ==>
      v == TranslationView(Some(MSG_PROVIDER_DOES_NOT_SUPPORT_THE_OCR_LANG), [])
  {
    if langs == [] then TranslationView(providerHint, [])
    else if IsLangSupport(langs, ocrLang) then TranslationView(None, TranslateLangItems(langs))
    else TranslationView(Some(MSG_PROVIDER_DOES_NOT_SUPPORT_THE_OCR_LANG), [])
  }

  /**
   * Target languages are offered only without a hint and only when one of
   * them shares the OCR language's primary subtag; a hint always comes with
   * an empty list when the provider's hint is absent or the list was not empty.
   */
  lemma RowsOnlyForSupportedOcrLang(langs: seq<TranslationLanguage>, providerHint: Option<string>, ocrLang: string)
    ensures var v := TranslationViewOf(langs, providerHint, ocrLang);
      v.items != [] <==> (v.hint == None && exists i :: 0 <= i < |langs| && FirstPart(langs[i].code) == FirstPart(ocrLang))
    ensures var v := TranslationViewOf(langs, providerHint, ocrLang);
      v.hint.Some? ==> v.items == []
  {
  }

  /** Whether a row is the one the user picked: same code and same engine. */
  predicate IsPicked(it: OCRLangItem, picked: OCRLangItem)
  {
    it.code == picked.code && it.Recognizer() == picked.Recognizer()
  }

  /** The row update of `onOCRLangSelected`. */
  function SelectRow(it: OCRLangItem, picked: OCRLangItem): OCRLangItem
  {
    if IsPicked(it, picked) then it.(selected := true, showDownloadIcon := false)
    else if it.selected then it.(selected := false)
    else it
  }

  /** The rows after `onOCRLangSelected(picked)`. */
  function SelectOCRLang(items: seq<OCRLangItem>, picked: OCRLangItem): (r: seq<OCRLangItem>)
    ensures |r| == |items|
    ensures forall i :: 0 <= i < |r| && IsPicked(items[i], picked) ==>
      r[i] == items[i].(selected := true, showDownloadIcon := false)
    ensures forall i :: 0 <= i < |r| && !IsPicked(items[i], picked) && items[i].selected ==>
      r[i] == items[i].(selected := false)
    ensures forall i :: 0 <= i < |r| && !IsPicked(items[i], picked) && !items[i].selected ==>
      r[i] == items[i]
  {
    if items == [] then [] else [SelectRow(items[0], picked)] + SelectOCRLang(items[1..], picked)
  }

  /**
   * After the selection exactly the picked rows are selected, and none of them
   * still offers a download; selecting the same row again changes nothing.
   */
  lemma SelectOCRLangSelectsExactlyPicked(items: seq<OCRLangItem>, picked: OCRLangItem)
    ensures forall i :: 0 <= i < |items| ==>
      (SelectOCRLang(items, picked)[i].selected <==> IsPicked(items[i], picked))
    ensures forall i :: 0 <= i < |items| && IsPicked(items[i], picked) ==>
      !SelectOCRLang(items, picked)[i].showDownloadIcon
    ensures SelectOCRLang(SelectOCRLang(items, picked), picked) == SelectOCRLang(items, picked)
  {
    var r := SelectOCRLang(items, picked);
    var rr := SelectOCRLang(r, picked);
    assert forall i :: 0 <= i < |r| ==> IsPicked(r[i], picked) == IsPicked(items[i], picked);
    assert forall i :: 0 <= i < |r| ==> rr[i] == r[i];
  }

  /** The rows after `onTranslationLangChecked(langCode)`. */
  function CheckTranslationLang(items: seq<TranslateLangItem>, langCode: string): (r: seq<TranslateLangItem>)
    ensures |r| == |items|
    ensures forall i :: 0 <= i < |r| ==>
      r[i].code == items[i].code && r[i].displayName == items[i].displayName
      && (r[i].selected <==> items[i].code == langCode)
  {
    if items == [] then [] else [items[0].(selected := items[0].code == langCode)] + CheckTranslationLang(items[1..], langCode)
  }

  /** With distinct codes, at most one target language is checked afterwards. */
  lemma CheckedAtMostOne(items: seq<TranslateLangItem>, langCode: string)
    requires forall i, j :: 0 <= i < j < |items| ==> items[i].code != items[j].code
    ensures forall i, j :: 0 <= i < j < |items| ==>
      !(CheckTranslationLang(items, langCode)[i].selected && CheckTranslationLang(items, langCode)[j].selected)
  {
  }

  /** The text a thrown exception contributes: `e.message ?: e.localizedMessage`, "null" when both are absent. */
  function ExceptionText(e: Failure): string
  {
    e.message.GetOr("null")
  }

  /** The outcome of `downloadOCRModel`: whether to go on, and the error dialog shown, if any. */
  datatype DownloadOutcome = DownloadOutcome(ok: bool, errorShown: Option<string>)

  /**
   * `downloadOCRModel`. `confirmed` is the answer to the download question,
   * `download` the result of fetching the Tesseract data (false, or a thrown
   * exception) and `cancelled` whether the user dismissed the progress dialog.
   */
  function DownloadOCRModel(lang: RecognitionLanguage, confirmed: bool, download: Result<bool, Failure>, cancelled: bool)
    : (o: DownloadOutcome)
    ensures o.ok <==> confirmed && lang.recognizer == Tesseract && download == Ok(true)
    ensures o.errorShown.Some? <==>
      confirmed && lang.recognizer == Tesseract && download != Ok(true) && !cancelled
    ensures o.errorShown == Some(MSG_DOWNLOAD_FAILED_UNKNOWN) ==> download == Ok(false)
    ensures download.Err? && o.errorShown.Some? ==>
      o.errorShown == Some(MSG_DOWNLOAD_FAILED_PREFIX + ExceptionText(download.error))
  {
    if !confirmed || lang.recognizer != Tesseract then DownloadOutcome(false, None)
    else match download
      case Ok(true) => DownloadOutcome(true, None)
      case Ok(false) => DownloadOutcome(false, if cancelled then None else Some(MSG_DOWNLOAD_FAILED_UNKNOWN))
      case Err(e) =>
        var msg := MSG_DOWNLOAD_FAILED_PREFIX + ExceptionText(e);
        assert msg[25] != MSG_DOWNLOAD_FAILED_UNKNOWN[25];
        DownloadOutcome(false, if cancelled then None else Some(msg))
  }

  /** The panel's view model; `None` is a list the panel has not received yet. */
  class TranslationSelectPanelViewModel {
    var ocrLanguageList: Option<seq<OCRLangItem>>
    var selectedTranslationProviderName: Option<string>
    var displayTranslationProviders: Option<seq<TranslationProvider>>
    var translationLangList: Option<seq<TranslateLangItem>>
    var displayTranslationHint: Option<string>
    /** The error dialogs shown, oldest first. */
    var errorsShown: seq<string>
    const pref: AppPref
    const mlKit: GoogleMLKitTranslator.GoogleMLKitTranslator

    predicate Valid()
      reads this, mlKit
    {
      mlKit.Valid()
    }

    constructor (pref: AppPref, mlKit: GoogleMLKitTranslator.GoogleMLKitTranslator)
      requires mlKit.Valid()
      ensures Valid() && this.pref == pref && this.mlKit == mlKit
      ensures ocrLanguageList == None && selectedTranslationProviderName == None
      ensures displayTranslationProviders == None && translationLangList == None
      ensures displayTranslationHint == None && errorsShown == []
    {
      this.pref := pref;
      this.mlKit := mlKit;
      ocrLanguageList := None;
      selectedTranslationProviderName := None;
      displayTranslationProviders := None;
      translationLangList := None;
      displayTranslationHint := None;
      errorsShown := [];
    }

    /** The target languages the provider of `providerKey` offers while `targetLang` is stored. */
    function ProviderLanguages(providerKey: string, targetLang: string): seq<TranslationLanguage>
      requires |mlKit.codes| <= |mlKit.names|
    {
      if FromKey(providerKey) == GoogleMLKit then
        GoogleMLKitTranslator.LanguageList(mlKit.codes, mlKit.names, ResolvedLangCode(targetLang, mlKit.codes))
      else []
    }

    /** The stored target language once that list is read: ML Kit settles it, the others keep it. */
    function SettledTargetLang(providerKey: string, targetLang: string): string
    {
      if FromKey(providerKey) == GoogleMLKit then ResolvedLangCode(targetLang, mlKit.codes) else targetLang
    }

    /** The hint and rows on screen are `TranslationViewOf` that list, the provider's hint and `ocrLang`. */
    predicate ShowsLanguagesOf(providerKey: string, targetLang: string, ocrLang: string)
      requires |mlKit.codes| <= |mlKit.names|
      reads this
    {
      var v := TranslationViewOf(ProviderLanguages(providerKey, targetLang),
        TranslationRepository.GetTranslationHint(providerKey), ocrLang);
      displayTranslationHint == v.hint && translationLangList == Some(v.items)
    }

    /**
     * `loadTranslationLanguageList(providerKey)`: the provider's languages (for
     * ML Kit this also settles the stored target language), then the hint and
     * rows of `TranslationViewOf`.
     */
    method LoadTranslationLanguageList(providerKey: string)
      requires Valid()
      modifies this, pref
      ensures Valid()
      ensures ShowsLanguagesOf(providerKey, old(pref.selectedTranslationLang), old(pref.selectedOCRLang))
      ensures pref.Values() == old(pref.Values()).(selectedTranslationLang :=
        SettledTargetLang(providerKey, old(pref.selectedTranslationLang)))
      ensures ocrLanguageList == old(ocrLanguageList) && errorsShown == old(errorsShown)
      ensures selectedTranslationProviderName == old(selectedTranslationProviderName)
      ensures displayTranslationProviders == old(displayTranslationProviders)
    {
      var langs := TranslationRepository.GetTranslationLanguageList(providerKey, mlKit, pref);
      var v := TranslationViewOf(langs, TranslationRepository.GetTranslationHint(providerKey), pref.selectedOCRLang);
      displayTranslationHint := v.hint;
      translationLangList := Some(v.items);
    }

    /** `load`, given the OCR catalog. */
    method Load(ocrLanguages: seq<RecognitionLanguage>)
      requires Valid()
      modifies this, pref
      ensures Valid()
      ensures ocrLanguageList == Some(OCRLangItems(ocrLanguages))
      ensures selectedTranslationProviderName == Some(TranslationRepository.GetSelectedProvider(old(pref.selectedTranslationProvider)).displayName)
      ensures errorsShown == old(errorsShown) && displayTranslationProviders == old(displayTranslationProviders)
      ensures ShowsLanguagesOf(TranslationRepository.GetSelectedProvider(old(pref.selectedTranslationProvider)).key,
        old(pref.selectedTranslationLang), old(pref.selectedOCRLang))
      ensures pref.Values() == old(pref.Values()).(selectedTranslationLang := SettledTargetLang(
        TranslationRepository.GetSelectedProvider(old(pref.selectedTranslationProvider)).key, old(pref.selectedTranslationLang)))
    {
      ocrLanguageList := Some(OCRLangItems(ocrLanguages));
      var provider := TranslationRepository.GetSelectedProvider(pref.selectedTranslationProvider);
      selectedTranslationProviderName := Some(provider.displayName);
      LoadTranslationLanguageList(provider.key);
    }

    /**
     * `onOCRLangSelected(item)`. A row with a download icon first goes
     * through `downloadOCRModel`; unless that succeeds nothing changes but
     * the error dialog. Otherwise the choice is stored, the rows are
     * updated and the target languages reloaded.
     */
    method OnOCRLangSelected(item: OCRLangItem, confirmed: bool, download: Result<bool, Failure>, cancelled: bool)
      requires Valid()
      modifies this, pref
      ensures Valid()
      ensures item.showDownloadIcon && !DownloadOCRModel(item.ocrLang, confirmed, download, cancelled).ok ==>
        unchanged(pref)
        && ocrLanguageList == old(ocrLanguageList) && translationLangList == old(translationLangList)
        && displayTranslationHint == old(displayTranslationHint)
        && errorsShown == old(errorsShown) + OptionSeq(DownloadOCRModel(item.ocrLang, confirmed, download, cancelled).errorShown)
      ensures !(item.showDownloadIcon && !DownloadOCRModel(item.ocrLang, confirmed, download, cancelled).ok) ==>
        errorsShown == old(errorsShown)
        && (old(ocrLanguageList).None? ==>
          ocrLanguageList == None && translationLangList == old(translationLangList)
          && displayTranslationHint == old(displayTranslationHint)
          && pref.Values() == old(pref.Values()).(selectedOCRLang := item.code, selectedOCRProvider := item.Recognizer()))
        && (old(ocrLanguageList).Some? ==>
          ocrLanguageList == Some(SelectOCRLang(old(ocrLanguageList).value, item))
          && ShowsLanguagesOf(FromKey(old(pref.selectedTranslationProvider)).Key(), old(pref.selectedTranslationLang), item.code)
          && pref.Values() == old(pref.Values()).(selectedOCRLang := item.code, selectedOCRProvider := item.Recognizer(),
            selectedTranslationLang := SettledTargetLang(FromKey(old(pref.selectedTranslationProvider)).Key(), old(pref.selectedTranslationLang))))
      ensures selectedTranslationProviderName == old(selectedTranslationProviderName)
      ensures displayTranslationProviders == old(displayTranslationProviders)
    {
      if item.showDownloadIcon {
        var outcome := DownloadOCRModel(item.ocrLang, confirmed, download, cancelled);
        if !outcome.ok {
          errorsShown := errorsShown + OptionSeq(outcome.errorShown);
          return;
        }
      }
      pref.selectedOCRLang := item.code;
      pref.selectedOCRProvider := item.Recognizer();
      if ocrLanguageList.None? {
        return;
      }
      ocrLanguageList := Some(SelectOCRLang(ocrLanguageList.value, item));
      LoadTranslationLanguageList(FromKey(pref.selectedTranslationProvider).Key());
    }

    /** `onTranslationProviderClicked`: the panel lists every provider. */
    method OnTranslationProviderClicked()
      modifies this
      ensures displayTranslationProviders == Some(TranslationRepository.GetAllProviders(pref.selectedTranslationProvider))
      ensures ocrLanguageList == old(ocrLanguageList) && translationLangList == old(translationLangList)
      ensures displayTranslationHint == old(displayTranslationHint) && errorsShown == old(errorsShown)
      ensures selectedTranslationProviderName == old(selectedTranslationProviderName)
    {
      displayTranslationProviders := Some(TranslationRepository.GetAllProviders(pref.selectedTranslationProvider));
    }

    /** `onTranslationProviderSelected(key)`: stores the provider and reloads its languages. */
    method OnTranslationProviderSelected(key: string)
      requires Valid()
      modifies this, pref
      ensures Valid()
      ensures pref.Values() == old(pref.Values()).(selectedTranslationProvider := FromKey(key).Key(),
        selectedTranslationLang := SettledTargetLang(key, old(pref.selectedTranslationLang)))
      ensures selectedTranslationProviderName == Some(FromKey(key).NameRes())
      ensures ShowsLanguagesOf(key, old(pref.selectedTranslationLang), old(pref.selectedOCRLang))
      ensures FromKey(key).NonTranslation() ==>
        displayTranslationHint.Some? && translationLangList == Some([])
      ensures ocrLanguageList == old(ocrLanguageList) && errorsShown == old(errorsShown)
      ensures displayTranslationProviders == old(displayTranslationProviders)
    {
      var provider := TranslationRepository.SetSelectedProvider(pref, key);
      selectedTranslationProviderName := Some(provider.displayName);
      FromKeyOfKey(FromKey(key));
      LoadTranslationLanguageList(provider.key);
    }

    /** `onTranslationLangChecked(langCode)`: stores the target language and checks its row only. */
    method OnTranslationLangChecked(langCode: string)
      modifies this, pref
      ensures pref.Values() == old(pref.Values()).(selectedTranslationLang := langCode)
      ensures old(translationLangList).Some? ==>
        translationLangList == Some(CheckTranslationLang(old(translationLangList).value, langCode))
      ensures old(translationLangList).None? ==> translationLangList == None
      ensures ocrLanguageList == old(ocrLanguageList) && displayTranslationHint == old(displayTranslationHint)
      ensures errorsShown == old(errorsShown)
      ensures selectedTranslationProviderName == old(selectedTranslationProviderName)
      ensures displayTranslationProviders == old(displayTranslationProviders)
    {
      TranslationRepository.SetSelectedTranslationLang(pref, langCode);
      if translationLangList.Some? {
        translationLangList := Some(CheckTranslationLang(translationLangList.value, langCode));
      }
    }
  }
}
