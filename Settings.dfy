/**
 * pages/setting/SettingManager.kt: the user settings, read from the shared
 * preferences with a default for every key.
 */
module Settings {
  import opened Constants
  import opened Wrappers

  /** The shared preferences, one map per value type. */
  datatype SharedPreferences = SharedPreferences(bools: map<string, bool>, ints: map<string, int>, strings: map<string, string>)

  const EMPTY_PREFERENCES := SharedPreferences(map[], map[], map[])

  const PREF_RESTORE_MAIN_BAR_POSITION := "pref_restore_main_bar_position"
  const PREF_ENABLE_FADING_OUT_WHILE_IDLE := "pref_enable_fading_out_while_idle"
  const PREF_FADE_OUT_AFTER_SECONDS := "pref_fade_out_after_seconds"
  const PREF_ENABLE_UNRECOMMENDED_LANG_ITEMS := "pref_enable_unrecommended_lang_items"
  const PREF_TIMEOUT_FOR_CAPTURING_SCREEN := "pref_timeout_for_capturing_screen"
  const PREF_TEXT_BLOCK_JOINER := "pref_text_block_joiner"
  const PREF_AUTO_COPY_OCR_RESULT := "pref_auto_copy_ocr_result"
  const PREF_HIDE_RECOGNIZED_RESULT_AFTER_TRANSLATED := "pref_hide_recognized_result_after_translated"
  const PREF_SAVE_LAST_SELECTION_AREA := "pref_save_last_selection_area"
  const PREF_EXIT_APP_WHILE_SPEN_INSERTED := "pref_exit_app_while_spen_inserted"

  function GetBoolean(p: SharedPreferences, key: string, default: bool): bool
  {
    if key in p.bools then p.bools[key] else default
  }

  function GetInt(p: SharedPreferences, key: string, default: int): int
  {
    if key in p.ints then p.ints[key] else default
  }

  function GetString(p: SharedPreferences, key: string, default: string): string
  {
    if key in p.strings then p.strings[key] else default
  }

  function RestoreMainBarPosition(p: SharedPreferences): bool { GetBoolean(p, PREF_RESTORE_MAIN_BAR_POSITION, true) }
  function EnableFadingOutWhileIdle(p: SharedPreferences): bool { GetBoolean(p, PREF_ENABLE_FADING_OUT_WHILE_IDLE, true) }
  function EnableUnrecommendedLangItems(p: SharedPreferences): bool { GetBoolean(p, PREF_ENABLE_UNRECOMMENDED_LANG_ITEMS, false) }
  function AutoCopyOCRResult(p: SharedPreferences): bool { GetBoolean(p, PREF_AUTO_COPY_OCR_RESULT, false) }
  function HideRecognizedResultAfterTranslated(p: SharedPreferences): bool { GetBoolean(p, PREF_HIDE_RECOGNIZED_RESULT_AFTER_TRANSLATED, false) }
  function SaveLastSelectionArea(p: SharedPreferences): bool { GetBoolean(p, PREF_SAVE_LAST_SELECTION_AREA, true) }
  function ExitAppWhileSPenInserted(p: SharedPreferences): bool { GetBoolean(p, PREF_EXIT_APP_WHILE_SPEN_INSERTED, true) }

  /** Milliseconds before the idle main bar fades out: the stored seconds, 5 by default, times 1000. */
  function TimeoutToFadeOut(p: SharedPreferences): (ms: int)
    ensures ms % 1000 == 0
    ensures PREF_FADE_OUT_AFTER_SECONDS !in p.ints ==> ms == 5000
    ensures PREF_FADE_OUT_AFTER_SECONDS in p.ints ==> ms / 1000 == p.ints[PREF_FADE_OUT_AFTER_SECONDS]
  {
    GetInt(p, PREF_FADE_OUT_AFTER_SECONDS, 5) * 1000
  }

  /** Milliseconds allowed for capturing the screen: the stored seconds, TIMEOUT_EXTRACT_SCREEN by default, times 1000. */
  function TimeoutForCapturingScreen(p: SharedPreferences): (ms: int)
    ensures ms % 1000 == 0
    ensures PREF_TIMEOUT_FOR_CAPTURING_SCREEN !in p.ints ==> ms == TIMEOUT_EXTRACT_SCREEN * 1000
    ensures PREF_TIMEOUT_FOR_CAPTURING_SCREEN in p.ints ==> ms / 1000 == p.ints[PREF_TIMEOUT_FOR_CAPTURING_SCREEN]
  {
    GetInt(p, PREF_TIMEOUT_FOR_CAPTURING_SCREEN, TIMEOUT_EXTRACT_SCREEN) * 1000
  }

  /** How the texts of recognized blocks are joined. */
  datatype TextBlockJoiner = LineBreaker | Space | NoneJoiner {
    /** The enum constant's name, as stored in the preferences. */
    function Name(): string
    {
      match this
      case LineBreaker => "LineBreaker"
      case Space => "Space"
      case NoneJoiner => "None"
    }

    function Joiner(): string
    {
      match this
      case LineBreaker => "\n"
      case Space => " "
      case NoneJoiner => ""
    }
  }

  const DEFAULT_JOINER := Space

  /** `TextBlockJoiner.valueOf`: the constant with exactly this name, if any. */
  function JoinerValueOf(name: string): (j: Option<TextBlockJoiner>)
    ensures j.Some? ==> j.value.Name() == name
    ensures forall k: TextBlockJoiner :: k.Name() == name ==> j == Some(k)
  {
    if name == "LineBreaker" then Some(LineBreaker)
    else if name == "Space" then Some(Space)
    else if name == "None" then Some(NoneJoiner)
    else None
  }

  /** The configured joiner: the stored name parsed, falling back to Space when it is missing or unknown. */
  function TextBlockJoinerSetting(p: SharedPreferences): (j: TextBlockJoiner)
    ensures PREF_TEXT_BLOCK_JOINER in p.strings && JoinerValueOf(p.strings[PREF_TEXT_BLOCK_JOINER]).Some? ==>
      j.Name() == p.strings[PREF_TEXT_BLOCK_JOINER]
    ensures PREF_TEXT_BLOCK_JOINER !in p.strings || JoinerValueOf(p.strings[PREF_TEXT_BLOCK_JOINER]).None? ==>
      j == DEFAULT_JOINER
  {
    match JoinerValueOf(GetString(p, PREF_TEXT_BLOCK_JOINER, DEFAULT_JOINER.Name()))
    case Some(j) => j
    case None => DEFAULT_JOINER
  }

  /** Storing a joiner's name and reading the setting back gives that joiner. */
  lemma JoinerRoundTrip(p: SharedPreferences, j: TextBlockJoiner)
    ensures TextBlockJoinerSetting(p.(strings := p.strings[PREF_TEXT_BLOCK_JOINER := j.Name()])) == j
  {
  }

  /** The three joiners are a line break, a space and nothing, and they are distinct. */
  lemma JoinerStrings()
    ensures LineBreaker.Joiner() == "\n" && Space.Joiner() == " " && NoneJoiner.Joiner() == ""
    ensures forall a: TextBlockJoiner, b: TextBlockJoiner :: a.Joiner() == b.Joiner() ==> a == b
  {
  }

  /** With nothing stored, every setting takes its default. */
  lemma Defaults()
    ensures RestoreMainBarPosition(EMPTY_PREFERENCES) && EnableFadingOutWhileIdle(EMPTY_PREFERENCES)
    ensures SaveLastSelectionArea(EMPTY_PREFERENCES) && ExitAppWhileSPenInserted(EMPTY_PREFERENCES)
    ensures !EnableUnrecommendedLangItems(EMPTY_PREFERENCES) && !AutoCopyOCRResult(EMPTY_PREFERENCES)
    ensures !HideRecognizedResultAfterTranslated(EMPTY_PREFERENCES)
    ensures TimeoutToFadeOut(EMPTY_PREFERENCES) == 5000
    ensures TimeoutForCapturingScreen(EMPTY_PREFERENCES) == 5000
    ensures TextBlockJoinerSetting(EMPTY_PREFERENCES) == Space
  {
  }

  /** The preference listener: only a change of the unrecommended-languages switch invalidates the OCR language cache. */
  function InvalidatesOcrLanguageCache(changedKey: string): (invalidates: bool)
    ensures invalidates <==> changedKey == PREF_ENABLE_UNRECOMMENDED_LANG_ITEMS
  {
    changedKey == PREF_ENABLE_UNRECOMMENDED_LANG_ITEMS
  }

  /**
   * Why the listener's test is enough: a boolean written under a key that does
   * not invalidate the cache leaves the unrecommended-languages setting as it
   * was, and one written under the key that does becomes that setting.
   */
  lemma CacheInvalidatedOnlyWhenNeeded(p: SharedPreferences, changedKey: string, value: bool)
    ensures !InvalidatesOcrLanguageCache(changedKey) ==>
      EnableUnrecommendedLangItems(p.(bools := p.bools[changedKey := value])) == EnableUnrecommendedLangItems(p)
    ensures InvalidatesOcrLanguageCache(changedKey) ==>
      EnableUnrecommendedLangItems(p.(bools := p.bools[changedKey := value])) == value
  {
  }
}
