/**
 * floatings/main/MainBarViewModel.kt: the floating bar's buttons, its
 * language label and its menu. The state and the selected languages arrive
 * as calls (the collected flows); the pages and windows the menu opens are
 * recorded as requests.
 */
module MainBar {
  import opened Wrappers
  import opened Graphics
  import opened Recognition
  import opened TranslationTypes
  import opened Prefs
  import opened FloatingStateManager
  import MLKitRecognizer
  import TesseractRecognizer
  import GeneralRepository
  import Constants

  const MENU_SETTING: string := "setting"
  const MENU_VERSION_HISTORY: string := "version_history"
  const MENU_README: string := "readme"
  const MENU_HIDE: string := "hide"
  const MENU_EXIT: string := "exit"

  /** `menuItems`: menu key to its label resource. */
  const MENU_ITEMS: map<string, string> := map[
    MENU_SETTING := "@string/menu_setting",
    MENU_VERSION_HISTORY := "@string/menu_version_history",
    MENU_README := "@string/menu_readme",
    MENU_HIDE := "@string/menu_hide",
    MENU_EXIT := "@string/menu_exit"]

  /** What the bar asks the rest of the app to do. */
  datatype Request = ShowSettingPage | ShowVersionHistory | ShowReadme | HideViews | ExitApp

  /** The request of a clicked menu key; an unknown key asks for nothing. */
  function MenuRequest(action: string): (r: Option<Request>)
    ensures r == Some(ShowSettingPage) <==> action == MENU_SETTING
    ensures r == Some(ShowVersionHistory) <==> action == MENU_VERSION_HISTORY
    ensures r == Some(ShowReadme) <==> action == MENU_README
    ensures r == Some(HideViews) <==> action == MENU_HIDE
    ensures r == Some(ExitApp) <==> action == MENU_EXIT
    ensures r == None <==> action !in MENU_ITEMS
  {
    if action == MENU_SETTING then Some(ShowSettingPage)
    else if action == MENU_VERSION_HISTORY then Some(ShowVersionHistory)
    else if action == MENU_README then Some(ShowReadme)
    else if action == MENU_HIDE then Some(HideViews)
    else if action == MENU_EXIT then Some(ExitApp)
    else None
  }

  /** Every menu entry the bar shows leads to a request of its own. */
  lemma MenuEntriesDistinct(a: string, b: string)
    requires a in MENU_ITEMS && b in MENU_ITEMS && a != b
    ensures MenuRequest(a).Some? && MenuRequest(b).Some? && MenuRequest(a) != MenuRequest(b)
  {
  }

  /** The visibility of the select, translate and close buttons. */
  datatype Buttons = Buttons(select: bool, translate: bool, close: bool)

  /** `setupButtons(state)` */
  function ButtonsFor(state: State): (b: Buttons)
    ensures b.select <==> state == Idle
    ensures b.translate <==> state == ScreenCircled
    ensures b.close <==> state == ScreenCircling || state == ScreenCircled
  {
    Buttons(state == Idle, state == ScreenCircled, state == ScreenCircling || state == ScreenCircled)
  }

  /**
   * The buttons follow the state machine: select is offered exactly where
   * circling may start, translate exactly where capturing may start, close
   * only where going back to idle is allowed; select never shows with the
   * others, and nothing shows once capturing has begun.
   */
  lemma ButtonsFollowTransitions(state: State)
    ensures ButtonsFor(state).select <==> CanMove(state, ScreenCircling)
    ensures ButtonsFor(state).translate <==> CanMove(state, ScreenCapturing)
    ensures ButtonsFor(state).close ==> CanMove(state, Idle)
    ensures ButtonsFor(state).select ==> !ButtonsFor(state).translate && !ButtonsFor(state).close
    ensures KindOf(state) !in {IdleKind, ScreenCirclingKind, ScreenCircledKind} ==>
      ButtonsFor(state) == Buttons(false, false, false)
  {
  }

  /** `parseToDisplayLangCode` of the selected OCR engine. */
  function DisplayLangCode(provider: OcrProviderType, langCode: string): (code: string)
    ensures provider == Tesseract ==> code == langCode
    ensures provider == GoogleMLKitOcr ==> code == MLKitRecognizer.ToISO639(langCode)
  {
    match provider
    case GoogleMLKitOcr => MLKitRecognizer.ToISO639(langCode)
    case Tesseract => TesseractRecognizer.ParseToDisplayLangCode(langCode)
  }

  /** The bar's language label for a displayed OCR language. */
  function LanguageText(ocrLang: string, provider: ProviderType, translationLang: string): (text: string)
    ensures provider == GoogleTranslateApp ==> text == ocrLang + ">"
    ensures provider == ProviderType.OCROnly ==> text == " " + ocrLang + " "
    ensures provider == GoogleMLKit ==> text == ocrLang + ">" + translationLang
  {
    if provider == GoogleTranslateApp then ocrLang + ">"
    else if provider == ProviderType.OCROnly then " " + ocrLang + " "
    else ocrLang + ">" + translationLang
  }

  /** The position of the first '>' of `s`, or |s|. */
  function ArrowIndex(s: string): (i: nat)
    ensures i <= |s| && '>' !in s[..i]
    ensures i < |s| ==> s[i] == '>'
  {
    if s == [] then 0
    else if s[0] == '>' then 0
    else
      var i := 1 + ArrowIndex(s[1..]);
      assert s[..i] == [s[0]] + s[1..][..i - 1];
      i
  }

  lemma {:induction false} ArrowIndexOfJoin(a: string, b: string)
    requires '>' !in a
    ensures ArrowIndex(a + ">" + b) == |a|
  {
    if a != [] {
      assert (a + ">" + b)[1..] == a[1..] + ">" + b;
      ArrowIndexOfJoin(a[1..], b);
    } else {
      assert (a + ">" + b)[0] == '>';
    }
  }

  /**
   * With the ML Kit translator the label names both languages unambiguously:
   * OCR codes never contain '>', so the label splits back into the two.
   */
  lemma {:induction false} LanguageTextDeterminesLanguages(o1: string, t1: string, o2: string, t2: string)
    requires '>' !in o1 && '>' !in o2
    requires LanguageText(o1, GoogleMLKit, t1) == LanguageText(o2, GoogleMLKit, t2)
    ensures o1 == o2 && t1 == t2
  {
    var s := o1 + ">" + t1;
    ArrowIndexOfJoin(o1, t1);
    ArrowIndexOfJoin(o2, t2);
    assert o1 == s[..|o1|] && o2 == s[..|o2|];
    assert t1 == s[|o1| + 1..] && t2 == s[|o2| + 1..];
  }

  /** The bar's view model; `None` is a value the bar has not been given yet. */
  class MainBarViewModel {
    var languageText: Option<string>
    var displayGoogleTranslateIcon: Option<bool>
    var displaySelectButton: Option<bool>
    var displayTranslateButton: Option<bool>
    var displayCloseButton: Option<bool>
    var displayMenuItems: Option<map<string, string>>
    /** How many times a fade-out reschedule was requested. */
    var fadeOutReschedules: nat
    /** The requests made, oldest first. */
    var requests: seq<Request>
    var selectedOCRLang: string
    var selectedTranslationProviderType: ProviderType
    var selectedTranslationLang: string
    const pref: AppPref

    constructor (pref: AppPref)
      ensures this.pref == pref
      ensures selectedOCRLang == Constants.DEFAULT_OCR_LANG
      ensures selectedTranslationProviderType == DEFAULT_TRANSLATION_PROVIDER
      ensures selectedTranslationLang == Constants.DEFAULT_TRANSLATION_LANG
      ensures languageText == None && displayGoogleTranslateIcon == None && displayMenuItems == None
      ensures displaySelectButton == None && displayTranslateButton == None && displayCloseButton == None
      ensures fadeOutReschedules == 0 && requests == []
    {
      this.pref := pref;
      selectedOCRLang := Constants.DEFAULT_OCR_LANG;
      selectedTranslationProviderType := DEFAULT_TRANSLATION_PROVIDER;
      selectedTranslationLang := Constants.DEFAULT_TRANSLATION_LANG;
      languageText := None;
      displayGoogleTranslateIcon := None;
      displaySelectButton := None;
      displayTranslateButton := None;
      displayCloseButton := None;
      displayMenuItems := None;
      fadeOutReschedules := 0;
      requests := [];
    }

    /** The button fields as `Buttons`, when all three are set. */
    function ShownButtons(): Option<Buttons>
      reads this
    {
      if displaySelectButton.Some? && displayTranslateButton.Some? && displayCloseButton.Some? then
        Some(Buttons(displaySelectButton.value, displayTranslateButton.value, displayCloseButton.value))
      else None
    }

    /** `setupButtons` */
    method SetupButtons(state: State)
      modifies this
      ensures ShownButtons() == Some(ButtonsFor(state))
      ensures languageText == old(languageText) && displayGoogleTranslateIcon == old(displayGoogleTranslateIcon)
      ensures displayMenuItems == old(displayMenuItems)
      ensures fadeOutReschedules == old(fadeOutReschedules) && requests == old(requests)
      ensures selectedOCRLang == old(selectedOCRLang) && selectedTranslationLang == old(selectedTranslationLang)
      ensures selectedTranslationProviderType == old(selectedTranslationProviderType)
    {
      displaySelectButton := Some(state == Idle);
      displayTranslateButton := Some(state == ScreenCircled);
      displayCloseButton := Some(state == ScreenCircling || state == ScreenCircled);
    }

    /** `onStateChanged`: the buttons follow the new state and the fade-out is rescheduled. */
    method OnStateChanged(state: State)
      modifies this
      ensures ShownButtons() == Some(ButtonsFor(state))
      ensures fadeOutReschedules == old(fadeOutReschedules) + 1
      ensures languageText == old(languageText) && displayGoogleTranslateIcon == old(displayGoogleTranslateIcon)
      ensures displayMenuItems == old(displayMenuItems) && requests == old(requests)
      ensures selectedOCRLang == old(selectedOCRLang) && selectedTranslationLang == old(selectedTranslationLang)
      ensures selectedTranslationProviderType == old(selectedTranslationProviderType)
    {
      SetupButtons(state);
      fadeOutReschedules := fadeOutReschedules + 1;
    }

    /**
     * `onSelectedLangChanged`: each absent argument keeps its previous value;
     * the label shows the OCR language as the selected engine displays it.
     */
    method OnSelectedLangChanged(ocrLang: Option<string>, providerType: Option<ProviderType>, translationLang: Option<string>)
      modifies this
      ensures selectedOCRLang == ocrLang.GetOr(old(selectedOCRLang))
      ensures selectedTranslationProviderType == providerType.GetOr(old(selectedTranslationProviderType))
      ensures selectedTranslationLang == translationLang.GetOr(old(selectedTranslationLang))
      ensures displayGoogleTranslateIcon == Some(selectedTranslationProviderType == GoogleTranslateApp)
      ensures languageText == Some(LanguageText(DisplayLangCode(pref.selectedOCRProvider, selectedOCRLang),
        selectedTranslationProviderType, selectedTranslationLang))
      ensures displaySelectButton == old(displaySelectButton) && displayTranslateButton == old(displayTranslateButton)
      ensures displayCloseButton == old(displayCloseButton)
      ensures displayMenuItems == old(displayMenuItems)
      ensures fadeOutReschedules == old(fadeOutReschedules) && requests == old(requests)
    {
      selectedOCRLang := ocrLang.GetOr(selectedOCRLang);
      selectedTranslationProviderType := providerType.GetOr(selectedTranslationProviderType);
      selectedTranslationLang := translationLang.GetOr(selectedTranslationLang);
      var displayLang := DisplayLangCode(pref.selectedOCRProvider, selectedOCRLang);
      displayGoogleTranslateIcon := Some(selectedTranslationProviderType == GoogleTranslateApp);
      languageText := Some(LanguageText(displayLang, selectedTranslationProviderType, selectedTranslationLang));
    }

    /** `onMenuButtonClicked` */
    method OnMenuButtonClicked()
      modifies this
      ensures displayMenuItems == Some(MENU_ITEMS)
      ensures fadeOutReschedules == old(fadeOutReschedules) + 1
      ensures displaySelectButton == old(displaySelectButton) && displayTranslateButton == old(displayTranslateButton)
      ensures displayCloseButton == old(displayCloseButton)
      ensures languageText == old(languageText) && displayGoogleTranslateIcon == old(displayGoogleTranslateIcon)
      ensures requests == old(requests)
      ensures selectedOCRLang == old(selectedOCRLang) && selectedTranslationLang == old(selectedTranslationLang)
      ensures selectedTranslationProviderType == old(selectedTranslationProviderType)
    {
      fadeOutReschedules := fadeOutReschedules + 1;
      displayMenuItems := Some(MENU_ITEMS);
    }

    /** `onMenuItemClicked(action)`: one request for a known key, none otherwise. */
    method OnMenuItemClicked(action: string)
      modifies this
      ensures requests == old(requests) + OptionSeq(MenuRequest(action))
      ensures displaySelectButton == old(displaySelectButton) && displayTranslateButton == old(displayTranslateButton)
      ensures displayCloseButton == old(displayCloseButton)
      ensures languageText == old(languageText) && displayGoogleTranslateIcon == old(displayGoogleTranslateIcon)
      ensures displayMenuItems == old(displayMenuItems) && fadeOutReschedules == old(fadeOutReschedules)
      ensures selectedOCRLang == old(selectedOCRLang) && selectedTranslationLang == old(selectedTranslationLang)
      ensures selectedTranslationProviderType == old(selectedTranslationProviderType)
    {
      if action == MENU_SETTING {
        requests := requests + [ShowSettingPage];
      } else if action == MENU_VERSION_HISTORY {
        requests := requests + [ShowVersionHistory];
      } else if action == MENU_README {
        requests := requests + [ShowReadme];
      } else if action == MENU_HIDE {
        requests := requests + [HideViews];
      } else if action == MENU_EXIT {
        requests := requests + [ExitApp];
      }
    }

    /**
     * The last launch of `onAttachedToScreen`: the buttons of the current
     * state, then the readme and the version history when not yet shown.
     */
    method ShowPendingPages(currentState: State, versionCodes: seq<string>)
      modifies this, pref
      ensures ShownButtons() == Some(ButtonsFor(currentState))
      ensures languageText == old(languageText) && displayGoogleTranslateIcon == old(displayGoogleTranslateIcon)
      ensures displayMenuItems == old(displayMenuItems) && fadeOutReschedules == old(fadeOutReschedules)
      ensures selectedOCRLang == old(selectedOCRLang) && selectedTranslationLang == old(selectedTranslationLang)
      ensures selectedTranslationProviderType == old(selectedTranslationProviderType)
      ensures requests == old(requests)
        + (if GeneralRepository.ReadmeCheck(old(pref.lastReadmeShownVersion)).alreadyShown then [] else [ShowReadme])
        + (if GeneralRepository.VersionHistoryCheck(versionCodes, old(pref.lastVersionHistoryShownVersion)).alreadyShown
           then [] else [ShowVersionHistory])
      ensures pref.Values() == old(pref.Values()).(
        lastReadmeShownVersion := GeneralRepository.ReadmeCheck(old(pref.lastReadmeShownVersion)).stored,
        lastVersionHistoryShownVersion :=
          GeneralRepository.VersionHistoryCheck(versionCodes, old(pref.lastVersionHistoryShownVersion)).stored)
    {
      SetupButtons(currentState);
      var readmeShown := GeneralRepository.IsReadmeAlreadyShown(pref);
      if !readmeShown {
        requests := requests + [ShowReadme];
      }
      var historyShown := GeneralRepository.IsVersionHistoryAlreadyShown(pref, versionCodes);
      if !historyShown {
        requests := requests + [ShowVersionHistory];
      }
    }

    /** `saveLastPosition` */
    method SaveLastPosition(x: int, y: int)
      modifies pref
      ensures pref.Values() == old(pref.Values()).(lastMainBarPosition := Point(x, y))
    {
      GeneralRepository.SaveLastMainBarPosition(pref, x, y);
    }
  }
}
