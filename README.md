# Multi-Translator on-screen OCR: a Dafny model of the core

Multi-Translator is an Android app that floats a main bar over other apps. The
user circles an area of the screen. The app captures that area, recognises its
text with an OCR engine (Google ML Kit or Tesseract) and translates the text.
It can translate with ML Kit on the device, hand the text to the Google
Translate app, or stop after recognition. This project models the app's
core logic in Dafny and proves properties of that model.

The modules follow the Kotlin files:

- `FloatingStateManager` (`StateManager.dfy`) is the state machine that drives
  a capture session. It covers the allowed-successor table of `changeState`,
  the `stateIn` guards and the chain circling → capturing → recognising →
  translating → result or error.
  - The class `FloatingStateManager` keeps the current state and the selection.
  - A log (`Effects`) records the committed moves, the error dialogs, the shown
    results and the recycled bitmaps.
  - Every method states its new log as the old log followed by the effects of
    that step.
  - Lemmas prove that every session is a legal path through the table. They
    also prove that a session ends showing a result exactly when capture,
    recognition and translation all succeed with something to show.
- `Circling` is the selection view `CirclingView`. It covers the drag box
  (`createNewBox`) and the in-place minimum-size fix (`fixBoxSize`) on a mutable
  rectangle, the resize gesture and the `selectedBox` observer.
- `MLKitRecognizer` and `TesseractRecognizer` are the two OCR engines. Each has
  a language catalog sorted by display name and builds the recognition result.
  Only the ML Kit catalog drops obsolete names and keeps one entry per display
  name; the Tesseract catalog keeps every entry of its arrays. The ML Kit engine keeps a per-script client
  cache. `Recognition` holds the shared sort and de-duplication by display
  name.
- `TranslationTypes`, `Translator`, `OCROnlyTranslator`,
  `GoogleTranslateAppTranslator` and `GoogleMLKitTranslator` are the providers.
  They cover the provider enum and `fromKey`, provider selection, language
  support by primary subtag, and the stored target language that falls back to
  "en". For ML Kit they also cover the translation guards, the one-slot client
  cache, and the check and download of translation models.
- `TranslationRepository` and `GeneralRepository` are the repositories.
  `TranslationRepository` lists providers and stores the selection.
  `GeneralRepository` runs the show-once checks of the readme and the version
  history, builds the version history records, and stores the selection area
  and the main-bar position.
- `TranslationSelectPanel` and `MainBar` are the two view models. The panel
  builds the OCR and target-language rows, selects rows and downloads OCR
  models. The main bar shows the buttons of each state, builds the language
  label and turns menu items into requests.
- `Settings` models `SettingManager`'s getters over a preferences map. `Prefs`
  models `AppPref`, the stored preferences object, as a class.

Calls whose outcome the app cannot decide are parameters of the methods that
make them. These are the screen capture, the recognisers' and translators'
results, thrown exceptions, the model downloads, the installed-app check and
the user's answers to dialogs. A failure is a `Failure` value with a kind
(I/O, timeout, other) and an optional message. Android string resources appear
as the constant text `"@string/<name>"`.

## Model

| member | source | states |
|---|---|---|
| LangTag.FirstPart | main/src/main/java/multi/translator/onscreenocr/utils/Utils.kt:51 | The primary subtag is a prefix of the tag with no '-' in it; when it is shorter than the tag, the next character is '-' |
| LangTag.FirstPartOfPlain | main/src/main/java/multi/translator/onscreenocr/utils/Utils.kt:51 | A tag without '-', the empty tag included, is its own primary subtag |
| LangTag.FirstPartIdempotent | main/src/main/java/multi/translator/onscreenocr/utils/Utils.kt:51 | Taking the primary subtag twice gives the same as taking it once |
| LangTag.FirstPartSplits | main/src/main/java/multi/translator/onscreenocr/utils/Utils.kt:51 | A tag is its primary subtag followed by either nothing or a '-' and the rest |
| LangTag.FirstPartOfExtension | main/src/main/java/multi/translator/onscreenocr/utils/Utils.kt:51 | p + "-" + rest has primary subtag p whenever p has no '-' |
| LangTag.FirstPartExamples | main/src/main/java/multi/translator/onscreenocr/utils/Utils.kt:51 | "zh-Hant" gives "zh", "en-US" gives "en"; "en" and "" are unchanged |
| Settings.TimeoutToFadeOut | main/src/main/java/multi/translator/onscreenocr/pages/setting/SettingManager.kt:48-49 | Whole seconds in milliseconds: the stored value times 1000, or 5000 when nothing is stored |
| Settings.TimeoutForCapturingScreen | main/src/main/java/multi/translator/onscreenocr/pages/setting/SettingManager.kt:57-60 | The stored seconds times 1000, or TIMEOUT_EXTRACT_SCREEN (5) seconds when nothing is stored |
| Settings.JoinerValueOf | main/src/main/java/multi/translator/onscreenocr/pages/setting/SettingManager.kt:65-68 | `valueOf` finds the one constant with exactly this name, and nothing for any other name |
| Settings.TextBlockJoinerSetting | main/src/main/java/multi/translator/onscreenocr/pages/setting/SettingManager.kt:62-72 | The stored joiner when its name parses; Space when the name is missing or unknown (the caught exception) |
| Settings.JoinerRoundTrip | main/src/main/java/multi/translator/onscreenocr/pages/setting/SettingManager.kt:62-78 | Storing a joiner's name and reading the setting back gives that joiner |
| Settings.JoinerStrings | main/src/main/java/multi/translator/onscreenocr/pages/setting/SettingManager.kt:74-78 | The joiners are "\n", " " and "", and distinct joiners have distinct strings |
| Settings.Defaults | main/src/main/java/multi/translator/onscreenocr/pages/setting/SettingManager.kt:32-90 | With empty preferences every getter returns the default it names in the source |
| Settings.InvalidatesOcrLanguageCache | main/src/main/java/multi/translator/onscreenocr/pages/setting/SettingManager.kt:92-101 | The listener invalidates the OCR language lists exactly when the unrecommended-languages key changes |
| Settings.CacheInvalidatedOnlyWhenNeeded | main/src/main/java/multi/translator/onscreenocr/pages/setting/SettingManager.kt:92-101 | A write under any key the listener ignores leaves the unrecommended-languages setting unchanged; a write under the key it reacts to sets that setting |
| Prefs.AppPref.constructor | main/src/main/java/multi/translator/onscreenocr/pref/AppPref.kt:20-43 | A fresh preferences object holds every property's default: ML Kit OCR, "en", the ML Kit translator, "en", no area, no shown versions, position (0, 0) |
| Recognition.InsertByName | main/src/main/java/multi/translator/onscreenocr/recognition/GoogleMLKitTextRecognizer.kt:50 | Inserting adds exactly the one element, and a sorted list stays sorted |
| Recognition.SortByName | main/src/main/java/multi/translator/onscreenocr/recognition/GoogleMLKitTextRecognizer.kt:50 | `sortedBy { displayName }` gives a permutation of its input that is sorted by display name |
| Recognition.SortedPairwise | main/src/main/java/multi/translator/onscreenocr/recognition/TesseractTextRecognizer.kt:63 | In a sorted list every earlier display name is at most every later one |
| Recognition.StrLeTotal | main/src/main/java/multi/translator/onscreenocr/recognition/TesseractTextRecognizer.kt:63 | The string order compares any two names |
| Recognition.StrLeTransitive | main/src/main/java/multi/translator/onscreenocr/recognition/TesseractTextRecognizer.kt:63 | The string order is transitive |
| Recognition.InsertKeepsNamesDistinct | main/src/main/java/multi/translator/onscreenocr/recognition/GoogleMLKitTextRecognizer.kt:49-50 | Inserting an element with a new display name keeps the names distinct |
| Recognition.SortKeepsNamesDistinct | main/src/main/java/multi/translator/onscreenocr/recognition/GoogleMLKitTextRecognizer.kt:49-50 | Sorting neither merges nor duplicates display names |
| Recognition.DistinctByName | main/src/main/java/multi/translator/onscreenocr/recognition/GoogleMLKitTextRecognizer.kt:49 | `distinctBy`: the names are distinct, each element comes from the input and has a name not already seen |
| Recognition.DistinctByNameNames | main/src/main/java/multi/translator/onscreenocr/recognition/GoogleMLKitTextRecognizer.kt:49 | Every input name not already seen is kept, and no other name appears |
| Recognition.DistinctByNameAppend | main/src/main/java/multi/translator/onscreenocr/recognition/GoogleMLKitTextRecognizer.kt:49 | A concatenation keeps the first part's result followed by the second part's entries whose names the first part lacks, so order is kept |
| Recognition.DistinctByNameSingle | main/src/main/java/multi/translator/onscreenocr/recognition/GoogleMLKitTextRecognizer.kt:49 | A single entry stays iff its name is not yet seen |
| Recognition.SeenAfterHead | main/src/main/java/multi/translator/onscreenocr/recognition/GoogleMLKitTextRecognizer.kt:49 | After the first entry and then the rest, the names seen are those of the whole list |
| Recognition.DistinctByNameKeepsFirst | main/src/main/java/multi/translator/onscreenocr/recognition/GoogleMLKitTextRecognizer.kt:49 | The entry kept for a name is its first occurrence |
| MLKitRecognizer.GetScriptType | main/src/main/java/multi/translator/onscreenocr/recognition/GoogleMLKitTextRecognizer.kt:112-138 | Japanese iff "ja", Korean iff "ko", Chinese iff the code starts with "zh", Devanagari iff hi/mr/ne/sa; Latin for everything else |
| MLKitRecognizer.ScriptTypeExamples | main/src/main/java/multi/translator/onscreenocr/recognition/GoogleMLKitTextRecognizer.kt:112-138 | "zh-Hant" and "zh" use the Chinese script. "ja-JP" uses Latin, because Japanese needs an exact "ja" |
| MLKitRecognizer.ToISO639 | main/src/main/java/multi/translator/onscreenocr/recognition/GoogleMLKitTextRecognizer.kt:140 | The result is a '-'-free prefix of the code that ends at the first '-' or at the end; a code without '-' is unchanged |
| MLKitRecognizer.ParseToDisplayLangCodeIdempotent | main/src/main/java/multi/translator/onscreenocr/recognition/GoogleMLKitTextRecognizer.kt:109 | Converting a code to its display code twice changes nothing more; "zh-Hant" shows as "zh" |
| MLKitRecognizer.StartsWithIgnoreCaseMeans | main/src/main/java/multi/translator/onscreenocr/recognition/GoogleMLKitTextRecognizer.kt:34-35 | A case-insensitive prefix match compares each prefix character with the name's, after case folding |
| MLKitRecognizer.LowerAll | main/src/main/java/multi/translator/onscreenocr/recognition/GoogleMLKitTextRecognizer.kt:34-35 | Each character is folded to lower case, the length is kept |
| MLKitRecognizer.StartsWithLowerPrefix | main/src/main/java/multi/translator/onscreenocr/recognition/GoogleMLKitTextRecognizer.kt:34-35 | Against a prefix without capitals, the case-blind test is a prefix test on the folded name |
| MLKitRecognizer.ObsoleteNameMeans | main/src/main/java/multi/translator/onscreenocr/recognition/GoogleMLKitTextRecognizer.kt:34-36 | A name is obsolete iff its folded form starts with "old " or "middle " |
| MLKitRecognizer.ObsoleteNameExamples | main/src/main/java/multi/translator/onscreenocr/recognition/GoogleMLKitTextRecognizer.kt:34-36 | "Old English" is dropped; "English" and "Old" (no space) are kept |
| MLKitRecognizer.MiddleNameExample | main/src/main/java/multi/translator/onscreenocr/recognition/GoogleMLKitTextRecognizer.kt:34-36 | "MIDDLE french" is dropped too, whatever its case |
| MLKitRecognizer.Catalog | main/src/main/java/multi/translator/onscreenocr/recognition/GoogleMLKitTextRecognizer.kt:30-48 | Every entry is the entry of some index whose name is not obsolete; every non-obsolete index gets its entry |
| MLKitRecognizer.CatalogAppend | main/src/main/java/multi/translator/onscreenocr/recognition/GoogleMLKitTextRecognizer.kt:30-48 | The catalog of concatenated arrays is the concatenation of the catalogs, so entries keep array order |
| MLKitRecognizer.CatalogSingle | main/src/main/java/multi/translator/onscreenocr/recognition/GoogleMLKitTextRecognizer.kt:37-47 | One pair gives its entry unless the name is obsolete |
| MLKitRecognizer.GetSupportedLanguageList | main/src/main/java/multi/translator/onscreenocr/recognition/GoogleMLKitTextRecognizer.kt:25-51 | The list is sorted and its names are distinct. Every entry comes from the catalog, is downloaded and unselected, and has innerCode == code. Every non-obsolete name appears |
| MLKitRecognizer.CatalogSplit | main/src/main/java/multi/translator/onscreenocr/recognition/GoogleMLKitTextRecognizer.kt:30-50 | A non-obsolete index whose name is new has its entry in the catalog after entries with other names only |
| MLKitRecognizer.GetSupportedLanguageListFirstListed | main/src/main/java/multi/translator/onscreenocr/recognition/GoogleMLKitTextRecognizer.kt:25-51 | For each name, the list holds the entry of the first index with that name, and no other entry with that name |
| MLKitRecognizer.JoinToString | main/src/main/java/multi/translator/onscreenocr/recognition/GoogleMLKitTextRecognizer.kt:95 | The joined text starts with the first part; its content part by part is fixed by JoinToStringSingle and JoinToStringAppend |
| MLKitRecognizer.JoinToStringLength | main/src/main/java/multi/translator/onscreenocr/recognition/GoogleMLKitTextRecognizer.kt:95 | The length of the joined text is the parts' total length plus one separator between each two neighbours; no parts join to "" |
| MLKitRecognizer.JoinToStringSingle | main/src/main/java/multi/translator/onscreenocr/recognition/GoogleMLKitTextRecognizer.kt:95 | A single part joins to itself, with no separator |
| MLKitRecognizer.JoinToStringAppend | main/src/main/java/multi/translator/onscreenocr/recognition/GoogleMLKitTextRecognizer.kt:95 | Appending a part to a non-empty list appends one separator and that part to the joined text |
| MLKitRecognizer.JoinWithoutSeparator | main/src/main/java/multi/translator/onscreenocr/recognition/GoogleMLKitTextRecognizer.kt:94-95 | The empty joiner concatenates the block texts |
| MLKitRecognizer.Texts | main/src/main/java/multi/translator/onscreenocr/recognition/GoogleMLKitTextRecognizer.kt:95 | One text per block, in block order |
| MLKitRecognizer.BoxesOf | main/src/main/java/multi/translator/onscreenocr/recognition/GoogleMLKitTextRecognizer.kt:101 | `mapNotNull`: no more boxes than blocks, and one per block when every block has a box |
| MLKitRecognizer.BoxesOfMembers | main/src/main/java/multi/translator/onscreenocr/recognition/GoogleMLKitTextRecognizer.kt:101 | Exactly the boxes that exist are listed |
| MLKitRecognizer.BoxesOfAppend | main/src/main/java/multi/translator/onscreenocr/recognition/GoogleMLKitTextRecognizer.kt:101 | The boxes of concatenated blocks are the concatenated boxes, in block order |
| MLKitRecognizer.BoxesOfSingle | main/src/main/java/multi/translator/onscreenocr/recognition/GoogleMLKitTextRecognizer.kt:101 | One block gives its box if it has one, and nothing otherwise |
| MLKitRecognizer.ResultOf | main/src/main/java/multi/translator/onscreenocr/recognition/GoogleMLKitTextRecognizer.kt:93-102 | The result is labelled with the ISO 639 code of the language, its text is the blocks' texts joined with the configured joiner (so it starts with the first block's text), and its boxes are the blocks' boxes in order |
| MLKitRecognizer.GoogleMLKitTextRecognizer.constructor | main/src/main/java/multi/translator/onscreenocr/recognition/GoogleMLKitTextRecognizer.kt:62-63 | A new recognizer has an empty client cache |
| MLKitRecognizer.GoogleMLKitTextRecognizer.GetOrPut | main/src/main/java/multi/translator/onscreenocr/recognition/GoogleMLKitTextRecognizer.kt:74-88 | Returns the script's client and caches it; a new client is built only when the script had none |
| MLKitRecognizer.GoogleMLKitTextRecognizer.Recognize | main/src/main/java/multi/translator/onscreenocr/recognition/GoogleMLKitTextRecognizer.kt:65-107 | The stored OCR language, not the argument, picks the script and labels the result. Its script gets cached. The blocks are joined with the configured joiner. A failure propagates |
| MLKitRecognizer.ClientsBounded | main/src/main/java/multi/translator/onscreenocr/recognition/GoogleMLKitTextRecognizer.kt:62-88 | The cache never builds more than one client per script, so at most five in total |
| TesseractRecognizer.TessDataFileName | main/src/main/java/multi/translator/onscreenocr/recognition/TesseractTextRecognizer.kt:28-29 | A trained-data file name ends in ".traineddata", and stripping the suffix gives back the language code |
| TesseractRecognizer.StripSuffix | main/src/main/java/multi/translator/onscreenocr/recognition/TesseractTextRecognizer.kt:36-37 | The stripped name followed by the suffix is the file name |
| TesseractRecognizer.StripSuffixRoundTrip | main/src/main/java/multi/translator/onscreenocr/recognition/TesseractTextRecognizer.kt:36-37 | A file name ending in the suffix is the trained-data file of its stripped name |
| TesseractRecognizer.DownloadedLangCodes | main/src/main/java/multi/translator/onscreenocr/recognition/TesseractTextRecognizer.kt:31-39 | A code is downloaded iff the folder is ready, it can be listed, and the code's trained-data file is in the listing |
| TesseractRecognizer.Catalog | main/src/main/java/multi/translator/onscreenocr/recognition/TesseractTextRecognizer.kt:48-62 | One entry per inner code, built from the same position of the three arrays |
| TesseractRecognizer.GetSupportedLanguageList | main/src/main/java/multi/translator/onscreenocr/recognition/TesseractTextRecognizer.kt:41-64 | A sorted permutation of the catalog. Every entry is an unselected Tesseract entry, downloaded iff its inner code's file is listed |
| TesseractRecognizer.Recognize | main/src/main/java/multi/translator/onscreenocr/recognition/TesseractTextRecognizer.kt:72-80 | The engine loads the inner code's trained data; the result carries the display code and the engine's own text and boxes |
| TesseractRecognizer.ParseToDisplayLangCode | main/src/main/java/multi/translator/onscreenocr/recognition/TesseractTextRecognizer.kt:82-84 | Tesseract result codes are already display codes and are returned unchanged |
| TranslationTypes.FirstWithKey | main/src/main/java/multi/translator/onscreenocr/translator/Translator.kt:67 | `firstOrNull`: a found type is listed and has the key; nothing is found only when no listed type has the key |
| TranslationTypes.FromKey | main/src/main/java/multi/translator/onscreenocr/translator/Translator.kt:66-67 | A known key gives the type with that key; an unknown key gives the default ML Kit provider |
| TranslationTypes.FromKeyOfKey | main/src/main/java/multi/translator/onscreenocr/translator/Translator.kt:58-67 | The keys are distinct, so every type is found again from its own key |
| TranslationTypes.AllProviderTypesInIndexOrder | main/src/main/java/multi/translator/onscreenocr/translator/Translator.kt:51-63 | The list of values holds every type, in strictly increasing index order |
| TranslationTypes.NonTranslationProviders | main/src/main/java/multi/translator/onscreenocr/translator/Translator.kt:55-63 | Exactly the Google Translate app and OCR-only are non-translation providers |
| TranslationTypes.FromType | main/src/main/java/multi/translator/onscreenocr/translator/Translator.kt:79-89 | The provider carries its type's key, name resource and non-translation flag and the selection it was given; its key resolves back to the type |
| Translator.GetTranslator | main/src/main/java/multi/translator/onscreenocr/translator/Translator.kt:14-24 | The translator returned for a type reports that type |
| Translator.GetTranslatorBijective | main/src/main/java/multi/translator/onscreenocr/translator/Translator.kt:14-24 | Every translator object is returned for its own type, and distinct types give distinct objects |
| Translator.StoredTranslator | main/src/main/java/multi/translator/onscreenocr/translator/Translator.kt:15-17 | With the default argument, the translator's type is `fromKey` of the stored provider key |
| Translator.IsLangSupport | main/src/main/java/multi/translator/onscreenocr/translator/Translator.kt:35-36 | Supported iff some listed language has the OCR language's primary subtag |
| Translator.DefaultSupportsNothing | main/src/main/java/multi/translator/onscreenocr/translator/Translator.kt:35-38 | With the inherited empty language list, no OCR language is supported |
| Translator.LangSupportIgnoresRegion | main/src/main/java/multi/translator/onscreenocr/translator/Translator.kt:35-36 | "lang-region" is supported exactly when "lang" is |
| Translator.FirstPartOfTagged | main/src/main/java/multi/translator/onscreenocr/utils/Utils.kt:51 | Appending a '-'-led suffix does not change the primary subtag |
| Translator.ResolvedLangCode | main/src/main/java/multi/translator/onscreenocr/translator/Translator.kt:40-48 | The stored target language when the provider lists it, else "en" |
| Translator.ResolvedLangCodeIdempotent | main/src/main/java/multi/translator/onscreenocr/translator/Translator.kt:40-48 | Once resolved, resolving again changes nothing, so only the first fallback writes |
| Translator.SelectedLangCode | main/src/main/java/multi/translator/onscreenocr/translator/Translator.kt:40-48 | Returns the resolved code, and the stored target language becomes that code; no other preference changes |
| OCROnlyTranslator.Type | main/src/main/java/multi/translator/onscreenocr/translator/OCROnlyTranslator.kt:6-7 | The OCR-only object is a non-translation provider and the one `getTranslator` returns for its type |
| OCROnlyTranslator.TranslationHint | main/src/main/java/multi/translator/onscreenocr/translator/OCROnlyTranslator.kt:9-10 | Unlike the default, a hint is always present |
| OCROnlyTranslator.Translate | main/src/main/java/multi/translator/onscreenocr/translator/OCROnlyTranslator.kt:12-13 | Every call returns the OCR-only result |
| OCROnlyTranslator.CheckEnvironment | main/src/main/java/multi/translator/onscreenocr/translator/Translator.kt:33 | The inherited environment check always reports ready |
| OCROnlyTranslator.SupportedLanguages | main/src/main/java/multi/translator/onscreenocr/translator/Translator.kt:38 | The inherited empty list supports no OCR language |
| GoogleTranslateAppTranslator.Type | main/src/main/java/multi/translator/onscreenocr/translator/GoogleTranslateAppTranslator.kt:11-12 | A non-translation provider, and the object `getTranslator` returns for its type |
| GoogleTranslateAppTranslator.TranslationHint | main/src/main/java/multi/translator/onscreenocr/translator/GoogleTranslateAppTranslator.kt:14-15 | A hint is always present |
| GoogleTranslateAppTranslator.CheckEnvironment | main/src/main/java/multi/translator/onscreenocr/translator/GoogleTranslateAppTranslator.kt:17-19 | Ready iff the Google Translate app is installed |
| GoogleTranslateAppTranslator.Translate | main/src/main/java/multi/translator/onscreenocr/translator/GoogleTranslateAppTranslator.kt:21-25 | Every call reports that the outer translator was launched |
| GoogleTranslateAppTranslator.SupportedLanguages | main/src/main/java/multi/translator/onscreenocr/translator/Translator.kt:38 | The inherited empty list supports no OCR language |
| GoogleMLKitTranslator.LanguageList | main/src/main/java/multi/translator/onscreenocr/translator/GoogleMLKitTranslator.kt:31-49 | One language per code with its own name, selected iff it is the resolved target |
| GoogleMLKitTranslator.FirstSelectedCode | main/src/main/java/multi/translator/onscreenocr/translator/GoogleMLKitTranslator.kt:59-60 | Nothing iff no language is selected; otherwise the code of a selected language |
| GoogleMLKitTranslator.SelectedCodeIsTarget | main/src/main/java/multi/translator/onscreenocr/translator/GoogleMLKitTranslator.kt:31-60 | The list has a selected language iff the target is listed, and it is the target |
| GoogleMLKitTranslator.LangKeyInjective | main/src/main/java/multi/translator/onscreenocr/translator/GoogleMLKitTranslator.kt:66 | Tags without '_' give distinct cache keys to distinct language pairs |
| GoogleMLKitTranslator.Plan | main/src/main/java/multi/translator/onscreenocr/translator/GoogleMLKitTranslator.kt:54-64 | The guards in order: not supported iff the OCR language is not supported; a run iff there is a target and both tags are known; otherwise the failure message of the first failing guard |
| GoogleMLKitTranslator.Candidates | main/src/main/java/multi/translator/onscreenocr/translator/GoogleMLKitTranslator.kt:106-109 | No more candidates than languages |
| GoogleMLKitTranslator.CandidatesMembers | main/src/main/java/multi/translator/onscreenocr/translator/GoogleMLKitTranslator.kt:106-109 | Exactly the listed codes whose primary subtag is the OCR language's or the target's |
| GoogleMLKitTranslator.CandidatesAppend | main/src/main/java/multi/translator/onscreenocr/translator/GoogleMLKitTranslator.kt:106-109 | The candidates of a concatenation are the concatenated candidates, in list order |
| GoogleMLKitTranslator.CandidatesSingle | main/src/main/java/multi/translator/onscreenocr/translator/GoogleMLKitTranslator.kt:106-109 | One language gives its code iff it matches either tag |
| GoogleMLKitTranslator.ListMinus | main/src/main/java/multi/translator/onscreenocr/translator/GoogleMLKitTranslator.kt:147-156 | `List - Iterable`: exactly the elements of the first list not in the second, and the whole list when nothing is removed |
| GoogleMLKitTranslator.ListMinusAppend | main/src/main/java/multi/translator/onscreenocr/translator/GoogleMLKitTranslator.kt:147-156 | The difference of a concatenation is the concatenation of the differences, so order and repeats are kept |
| GoogleMLKitTranslator.ListMinusSingle | main/src/main/java/multi/translator/onscreenocr/translator/GoogleMLKitTranslator.kt:151 | A single element stays iff it is not in the second list |
| GoogleMLKitTranslator.ResourceCheck | main/src/main/java/multi/translator/onscreenocr/translator/GoogleMLKitTranslator.kt:105-145 | Ready iff the model listing succeeded and holds every candidate, and then no dialog is shown. A listing failure shows its message. Otherwise a download is offered for ListMinus of the candidates and the downloaded models |
| GoogleMLKitTranslator.FirstFailing | main/src/main/java/multi/translator/onscreenocr/translator/GoogleMLKitTranslator.kt:158-171 | Every language before the position downloads, and the language at the position fails |
| GoogleMLKitTranslator.DownloadResources | main/src/main/java/multi/translator/onscreenocr/translator/GoogleMLKitTranslator.kt:158-171 | Downloads the prefix before the first failure, and raises that failure when there is one |
| GoogleMLKitTranslator.FirstFailingAt | main/src/main/java/multi/translator/onscreenocr/translator/GoogleMLKitTranslator.kt:158-171 | The first index that fails after a run of successes is the first failing position |
| GoogleMLKitTranslator.DownloadTranslationResources | main/src/main/java/multi/translator/onscreenocr/translator/GoogleMLKitTranslator.kt:173-211 | The dialog says the models were downloaded when none fails; otherwise it shows the first failure's message |
| GoogleMLKitTranslator.UseClient | main/src/main/java/multi/translator/onscreenocr/translator/GoogleMLKitTranslator.kt:66-88 | The same key reuses the cache. A new key closes the old client and builds one for this pair. Afterwards the cache holds this pair's key. The cache invariant is kept |
| GoogleMLKitTranslator.SecondTranslationReuses | main/src/main/java/multi/translator/onscreenocr/translator/GoogleMLKitTranslator.kt:66-88 | A second translation of the same pair reuses the client and changes nothing; a call builds at most one client |
| GoogleMLKitTranslator.ReusedClientMatchesPair | main/src/main/java/multi/translator/onscreenocr/translator/GoogleMLKitTranslator.kt:66-88 | A reused client translates from and to the requested languages |
| GoogleMLKitTranslator.TranslateResult | main/src/main/java/multi/translator/onscreenocr/translator/GoogleMLKitTranslator.kt:54-103 | Not supported, a failed translation with the guard's message, the translated text, or the client's failure propagated; never an OCR-only or launched result |
| GoogleMLKitTranslator.GoogleMLKitTranslator.constructor | main/src/main/java/multi/translator/onscreenocr/translator/GoogleMLKitTranslator.kt:28-49 | The language arrays and known tags are kept; the client cache starts empty |
| GoogleMLKitTranslator.GoogleMLKitTranslator.SupportedLanguages | main/src/main/java/multi/translator/onscreenocr/translator/GoogleMLKitTranslator.kt:31-49 | The list for the resolved target, which is also stored |
| GoogleMLKitTranslator.GoogleMLKitTranslator.GetClient | main/src/main/java/multi/translator/onscreenocr/translator/GoogleMLKitTranslator.kt:66-88 | The cache moves as UseClient says, and the returned client is the cached one |
| GoogleMLKitTranslator.GoogleMLKitTranslator.Translate | main/src/main/java/multi/translator/onscreenocr/translator/GoogleMLKitTranslator.kt:54-103 | The result follows the guard plan and the client's outcome; the cache is consulted only when the guards pass; the stored target is resolved |
| GoogleMLKitTranslator.GoogleMLKitTranslator.CheckEnvironment | main/src/main/java/multi/translator/onscreenocr/translator/GoogleMLKitTranslator.kt:51-52 | The resource check runs over the candidates of the resolved target and the stored OCR language |
| TranslationRepository.GetAllProviders | main/src/main/java/multi/translator/onscreenocr/repo/TranslationRepository.kt:30-44 | Every type once, in index order, built by `fromType`, selected iff its key is the stored key |
| TranslationRepository.AtMostOneSelected | main/src/main/java/multi/translator/onscreenocr/repo/TranslationRepository.kt:30-44 | At most one provider is selected, and one is iff the stored key is a real key |
| TranslationRepository.GetSelectedProvider | main/src/main/java/multi/translator/onscreenocr/repo/TranslationRepository.kt:46-50 | The provider `fromKey` resolves the stored key to, marked selected |
| TranslationRepository.SetSelectedProvider | main/src/main/java/multi/translator/onscreenocr/repo/TranslationRepository.kt:52-57 | Stores the resolved type's key (never an unknown key) and returns the provider that a later `getSelectedProvider` also returns |
| TranslationRepository.SetSelectedTranslationLang | main/src/main/java/multi/translator/onscreenocr/repo/TranslationRepository.kt:64-68 | Only the stored target language changes |
| TranslationRepository.GetTranslationLanguageList | main/src/main/java/multi/translator/onscreenocr/repo/TranslationRepository.kt:59-62 | ML Kit lists its languages and resolves the stored target; the other providers list nothing and store nothing |
| TranslationRepository.GetTranslationHint | main/src/main/java/multi/translator/onscreenocr/repo/TranslationRepository.kt:70-73 | A hint exists iff the provider is a non-translation provider; it is the resolved provider's own hint (none for ML Kit, the Translate app's or the OCR-only one) |
| GeneralRepository.ReadmeCheck | main/src/main/java/multi/translator/onscreenocr/repo/GeneralRepository.kt:41-51 | Already shown iff the stored version is the readme's version; afterwards that version is stored |
| GeneralRepository.ReadmeShownOnce | main/src/main/java/multi/translator/onscreenocr/repo/GeneralRepository.kt:41-51 | After one check, every later check reports the readme as shown |
| GeneralRepository.VersionHistoryCheck | main/src/main/java/multi/translator/onscreenocr/repo/GeneralRepository.kt:53-63 | Without version codes there is nothing to show. Otherwise it is already shown iff the newest code is stored, and the newest code is stored afterwards |
| GeneralRepository.VersionHistoryShownOncePerVersion | main/src/main/java/multi/translator/onscreenocr/repo/GeneralRepository.kt:53-63 | After a check, a later one reports "not shown" exactly when the newest version code has changed |
| GeneralRepository.IsReadmeAlreadyShown | main/src/main/java/multi/translator/onscreenocr/repo/GeneralRepository.kt:41-51 | Answers ReadmeCheck, stores its version and writes nothing when already shown |
| GeneralRepository.IsVersionHistoryAlreadyShown | main/src/main/java/multi/translator/onscreenocr/repo/GeneralRepository.kt:53-63 | Answers VersionHistoryCheck, stores its version and writes nothing when already shown |
| GeneralRepository.ReplaceDots | main/src/main/java/multi/translator/onscreenocr/repo/GeneralRepository.kt:72 | Same length; each '.' becomes '_' and every other character is kept |
| GeneralRepository.VersionMessageKey | main/src/main/java/multi/translator/onscreenocr/repo/GeneralRepository.kt:70-73 | The resource name is "version_" followed by the code with its dots replaced, so it contains no '.' |
| GeneralRepository.VersionMessageKeyExample | main/src/main/java/multi/translator/onscreenocr/repo/GeneralRepository.kt:21 | "2.2.0" names the resource "version_2_2_0" |
| GeneralRepository.VersionHistory | main/src/main/java/multi/translator/onscreenocr/repo/GeneralRepository.kt:65-86 | Each record's version is a code whose message exists, with that message; every code with a message has its record |
| GeneralRepository.VersionHistoryAppend | main/src/main/java/multi/translator/onscreenocr/repo/GeneralRepository.kt:65-86 | The history of concatenated codes is the concatenated histories, in code order |
| GeneralRepository.VersionHistorySingle | main/src/main/java/multi/translator/onscreenocr/repo/GeneralRepository.kt:69-80 | One code gives its record iff its message exists |
| GeneralRepository.VersionHistoryComplete | main/src/main/java/multi/translator/onscreenocr/repo/GeneralRepository.kt:65-86 | When every message exists, the records list exactly the codes, in order |
| GeneralRepository.GetLastRememberedSelectionArea | main/src/main/java/multi/translator/onscreenocr/repo/GeneralRepository.kt:31-33 | Reads back the stored area |
| GeneralRepository.SetLastRememberedSelectionArea | main/src/main/java/multi/translator/onscreenocr/repo/GeneralRepository.kt:35-39 | Only the stored area changes, and it becomes the rectangle |
| GeneralRepository.SaveLastMainBarPosition | main/src/main/java/multi/translator/onscreenocr/repo/GeneralRepository.kt:88-90 | Only the stored main-bar position changes |
| Circling.CreateNewBox | main/src/main/java/multi/translator/onscreenocr/floatings/screenCircling/CirclingView.kt:146-158 | A box that is not inverted, with edges at exactly the two points' coordinates |
| Circling.CreateNewBoxSymmetric | main/src/main/java/multi/translator/onscreenocr/floatings/screenCircling/CirclingView.kt:146-158 | Dragging in either direction gives the same box |
| Circling.FixWidth | main/src/main/java/multi/translator/onscreenocr/floatings/screenCircling/CirclingView.kt:184-191 | A wide enough box is kept; a narrow one becomes exactly MIN_SCREEN_CROP_SIZE wide; top and bottom are unchanged |
| Circling.FixHeight | main/src/main/java/multi/translator/onscreenocr/floatings/screenCircling/CirclingView.kt:193-200 | A tall enough box is kept; a short one becomes exactly MIN_SCREEN_CROP_SIZE high; left and right are unchanged |
| Circling.FixedBox | main/src/main/java/multi/translator/onscreenocr/floatings/screenCircling/CirclingView.kt:181-203 | The fixed box is at least the minimum in both dimensions, and a dimension already large enough keeps its edges |
| Circling.FixedBoxInsideParent | main/src/main/java/multi/translator/onscreenocr/floatings/screenCircling/CirclingView.kt:181-203 | A box within a parent of at least the minimum size stays inside it after fixing |
| Circling.FixedBoxShortWidth | main/src/main/java/multi/translator/onscreenocr/floatings/screenCircling/CirclingView.kt:184-191 | A narrow box grows to the right; when that crosses the parent's right edge, it is shifted back to end there |
| Circling.FixedBoxIdempotent | main/src/main/java/multi/translator/onscreenocr/floatings/screenCircling/CirclingView.kt:47-51 | Fixing a fixed box changes nothing, so the observer re-applying it is harmless |
| Circling.SmallParentPushesBoxOut | main/src/main/java/multi/translator/onscreenocr/floatings/screenCircling/CirclingView.kt:184-191 | In a parent narrower than the minimum, the shift moves the box past the parent's left edge |
| Circling.DragBoxInsideParent | main/src/main/java/multi/translator/onscreenocr/floatings/screenCircling/CirclingView.kt:71-86 | A drag inside a large enough parent selects a box inside it of at least the minimum size |
| Circling.TinyDragBox | main/src/main/java/multi/translator/onscreenocr/floatings/screenCircling/CirclingView.kt:146-158 | A drag from (0,0) to (10,10) gives the 10x10 box at the origin |
| Circling.TinyDragWidthFixed | main/src/main/java/multi/translator/onscreenocr/floatings/screenCircling/CirclingView.kt:184-191 | The 10x10 box widens to 32 in a 500x500 parent |
| Circling.TinyDragHeightFixed | main/src/main/java/multi/translator/onscreenocr/floatings/screenCircling/CirclingView.kt:193-200 | The 32x10 box heightens to 32 in a 500x500 parent |
| Circling.TinyDragGrowsToMinimum | main/src/main/java/multi/translator/onscreenocr/floatings/screenCircling/CirclingView.kt:72 | A 10x10 drag becomes a 32x32 box at the drag's corner |
| Circling.LargeDragKept | main/src/main/java/multi/translator/onscreenocr/floatings/screenCircling/CirclingView.kt:72 | A 100x100 drag, made backwards, is kept as it is |
| Circling.ClampedEdges | main/src/main/java/multi/translator/onscreenocr/floatings/screenCircling/CirclingView.kt:100-105 | The edges are clamped into the parent, and right/bottom lie past left/top unless clamping forbids it |
| Circling.ResizedInsideParent | main/src/main/java/multi/translator/onscreenocr/floatings/screenCircling/CirclingView.kt:96-114 | For any deltas, the resized box is inside a large enough parent, not degenerate, and at least the minimum size |
| Circling.MutableRect.constructor | main/src/main/java/multi/translator/onscreenocr/floatings/screenCircling/CirclingView.kt:92 | A copy holds the given edges |
| Circling.MutableRect.FixBoxSize | main/src/main/java/multi/translator/onscreenocr/floatings/screenCircling/CirclingView.kt:181-203 | Rewrites the rectangle in place to FixedBox of its old value |
| Circling.CirclingView.constructor | main/src/main/java/multi/translator/onscreenocr/floatings/screenCircling/CirclingView.kt:44-52 | No drag points, no selected box and an empty resize base |
| Circling.CirclingView.SetSelectedBox | main/src/main/java/multi/translator/onscreenocr/floatings/screenCircling/CirclingView.kt:47-51 | The new box becomes the selection and is fixed in place |
| Circling.CirclingView.OnAreaCreationStart | main/src/main/java/multi/translator/onscreenocr/floatings/screenCircling/CirclingView.kt:55-62 | The selection is dropped and the start point recorded |
| Circling.CirclingView.OnAreaCreationDragging | main/src/main/java/multi/translator/onscreenocr/floatings/screenCircling/CirclingView.kt:64-69 | Records the end point, nothing else |
| Circling.CirclingView.OnAreaCreationFinish | main/src/main/java/multi/translator/onscreenocr/floatings/screenCircling/CirclingView.kt:71-86 | Selects a new box, fixed from the drag, reports it, and forgets the drag points |
| Circling.CirclingView.OnAreaResizeStart | main/src/main/java/multi/translator/onscreenocr/floatings/screenCircling/CirclingView.kt:88-94 | With a selection, the base becomes a new copy of it; otherwise nothing changes |
| Circling.CirclingView.OnAreaResizing | main/src/main/java/multi/translator/onscreenocr/floatings/screenCircling/CirclingView.kt:96-114 | The selected box becomes the box resized from the base; the base is unchanged |
| Circling.CirclingView.OnAreaResizeFinish | main/src/main/java/multi/translator/onscreenocr/floatings/screenCircling/CirclingView.kt:116-124 | Reports the selected box, or nothing without one |
| Circling.CirclingView.Clear | main/src/main/java/multi/translator/onscreenocr/floatings/screenCircling/CirclingView.kt:139-144 | Drag points and selection are cleared |
| FloatingStateManager.AllowedNextShape | main/src/main/java/multi/translator/onscreenocr/floatings/manager/FloatingStateManager.kt:305-322 | No state allows itself; every state but idle may return to idle; idle may only start circling |
| FloatingStateManager.NoSelfTransition | main/src/main/java/multi/translator/onscreenocr/floatings/manager/FloatingStateManager.kt:305-332 | No allowed move keeps the kind of state |
| FloatingStateManager.ErrorMessageIgnored | main/src/main/java/multi/translator/onscreenocr/floatings/manager/FloatingStateManager.kt:305-332 | Moves into and out of an error state do not depend on its message |
| FloatingStateManager.IdleReachable | main/src/main/java/multi/translator/onscreenocr/floatings/manager/FloatingStateManager.kt:305-332 | Every state but Idle may go back to Idle, and Idle may only start circling |
| FloatingStateManager.LegalPathConcat | main/src/main/java/multi/translator/onscreenocr/floatings/manager/FloatingStateManager.kt:305-332 | Legal paths compose, and the end of the joined path is the end of the second part |
| FloatingStateManager.CaptureErrorMessage | main/src/main/java/multi/translator/onscreenocr/floatings/manager/FloatingStateManager.kt:150-157 | A timeout gets its own message; otherwise the failure's message, or the unknown-capture message |
| FloatingStateManager.RecognitionErrorMessage | main/src/main/java/multi/translator/onscreenocr/floatings/manager/FloatingStateManager.kt:180-186 | The engine's too-small-image message becomes the area-too-small message; otherwise the failure's message, or the unknown-recognition message |
| FloatingStateManager.TranslationFailedMessage | main/src/main/java/multi/translator/onscreenocr/floatings/manager/FloatingStateManager.kt:251-263 | An I/O failure reports a connection problem; otherwise the failure's message, or the unknown-error message |
| FloatingStateManager.TranslationThrownMessage | main/src/main/java/multi/translator/onscreenocr/floatings/manager/FloatingStateManager.kt:266-269 | The thrown failure's message, or the fixed unknown-translation text |
| FloatingStateManager.ShownResult | main/src/main/java/multi/translator/onscreenocr/floatings/manager/FloatingStateManager.kt:214-250 | A result is shown iff the translation is translated, not supported, or OCR-only. It carries the recognised text and boxes, and a translation carries its text and provider |
| FloatingStateManager.BackToIdleEffectsLegal | main/src/main/java/multi/translator/onscreenocr/floatings/manager/FloatingStateManager.kt:289-294 | A legal path ending in Idle, with no dialog, result or recycling; nothing at all from Idle |
| FloatingStateManager.ShowErrorEffectsLegal | main/src/main/java/multi/translator/onscreenocr/floatings/manager/FloatingStateManager.kt:281-287 | Exactly one dialog with the message and a legal path ending in Idle; where allowed, the error state and then Idle |
| FloatingStateManager.TranslationOutcomeLegal | main/src/main/java/multi/translator/onscreenocr/floatings/manager/FloatingStateManager.kt:196-271 | After TextTranslating the moves are legal and end showing a result iff the translation gives one to show, otherwise in Idle; the dialog shown is the translation's error, if any |
| FloatingStateManager.TranslationEffectsLegal | main/src/main/java/multi/translator/onscreenocr/floatings/manager/FloatingStateManager.kt:196-271 | Starts with TextTranslating, is legal from either start state, and ends showing a result or in Idle; a result is shown iff the translation gives one to show; shows the translation's error if any; recycles nothing |
| FloatingStateManager.RecognitionOutcomeLegal | main/src/main/java/multi/translator/onscreenocr/floatings/manager/FloatingStateManager.kt:162-194 | After TextRecognizing the moves are legal and end showing a result iff recognition and translation both give one; the crop is recycled iff recognition succeeds |
| FloatingStateManager.RecognitionEffectsLegal | main/src/main/java/multi/translator/onscreenocr/floatings/manager/FloatingStateManager.kt:162-194 | Starts with TextRecognizing and is legal from ScreenCapturing. It ends showing a result iff recognition and translation succeed with a result to show, and otherwise in Idle. The crop is recycled only after a successful recognition; a failed one shows one error and no result |
| FloatingStateManager.CaptureOutcomeLegal | main/src/main/java/multi/translator/onscreenocr/floatings/manager/FloatingStateManager.kt:129-194 | After ScreenCapturing the moves are legal and end showing a result iff every later step succeeds with one to show; a crop is recycled iff capture and recognition succeed |
| FloatingStateManager.CaptureEffectsLegal | main/src/main/java/multi/translator/onscreenocr/floatings/manager/FloatingStateManager.kt:129-194 | Every session from ScreenCircled starts with ScreenCapturing and is legal. It ends showing a result iff every step succeeds with something to show, and otherwise in Idle. A bitmap is recycled iff capture and recognition succeed |
| FloatingStateManager.CaptureFailureEffects | main/src/main/java/multi/translator/onscreenocr/floatings/manager/FloatingStateManager.kt:138-157 | A failed capture moves through ScreenCapturing and the error state back to Idle, shows its one message, and nothing else happens |
| FloatingStateManager.SessionEnds | main/src/main/java/multi/translator/onscreenocr/floatings/manager/FloatingStateManager.kt:129-194 | A session appended to a legal history that reached ScreenCircled keeps it legal and leaves the manager showing a result or in Idle, showing a result iff every step succeeds with one to show |
| FloatingStateManager.FloatingStateManager.constructor | main/src/main/java/multi/translator/onscreenocr/floatings/manager/FloatingStateManager.kt:38-70 | Starts in Idle with an empty log, the default OCR language and no selection |
| FloatingStateManager.FloatingStateManager.ChangeState | main/src/main/java/multi/translator/onscreenocr/floatings/manager/FloatingStateManager.kt:305-332 | An allowed move is committed and logged; a refused one changes nothing; the log stays a legal path ending in the current state |
| FloatingStateManager.FloatingStateManager.BackToIdle | main/src/main/java/multi/translator/onscreenocr/floatings/manager/FloatingStateManager.kt:289-294 | Ends in Idle, logging BackToIdleEffects |
| FloatingStateManager.FloatingStateManager.ShowError | main/src/main/java/multi/translator/onscreenocr/floatings/manager/FloatingStateManager.kt:281-287 | Logs ShowErrorEffects of the state it started in |
| FloatingStateManager.FloatingStateManager.ShowResult | main/src/main/java/multi/translator/onscreenocr/floatings/manager/FloatingStateManager.kt:273-279 | From TextTranslating it shows the result in ResultDisplaying; from any other state nothing changes |
| FloatingStateManager.FloatingStateManager.StartTranslation | main/src/main/java/multi/translator/onscreenocr/floatings/manager/FloatingStateManager.kt:196-271 | From TextRecognizing or ResultDisplaying it logs TranslationEffects; from any other state nothing changes |
| FloatingStateManager.FloatingStateManager.Translate | main/src/main/java/multi/translator/onscreenocr/floatings/manager/FloatingStateManager.kt:198-270 | Once the guard has passed it logs TranslationEffects and keeps the log a legal path |
| FloatingStateManager.FloatingStateManager.StartRecognition | main/src/main/java/multi/translator/onscreenocr/floatings/manager/FloatingStateManager.kt:162-194 | From ScreenCapturing it logs RecognitionEffects; from any other state nothing changes |
| FloatingStateManager.FloatingStateManager.Recognize | main/src/main/java/multi/translator/onscreenocr/floatings/manager/FloatingStateManager.kt:164-193 | Once the guard has passed it logs RecognitionEffects, recycling the crop only after a successful recognition |
| FloatingStateManager.FloatingStateManager.StartScreenCapturing | main/src/main/java/multi/translator/onscreenocr/floatings/manager/FloatingStateManager.kt:129-160 | Only from ScreenCircled, recording the language. Without both rectangles it stops. Otherwise it logs CaptureEffects and keeps the crop |
| FloatingStateManager.FloatingStateManager.Capture | main/src/main/java/multi/translator/onscreenocr/floatings/manager/FloatingStateManager.kt:134-158 | Logs CaptureEffects, keeps the crop of a successful capture, and ends showing a result iff every step succeeds with one to show, otherwise in Idle |
| FloatingStateManager.FloatingStateManager.StartScreenCircling | main/src/main/java/multi/translator/onscreenocr/floatings/manager/FloatingStateManager.kt:101-111 | From Idle with a ready environment it moves to ScreenCircling and keeps the language, rectangles and bitmap; otherwise nothing changes |
| FloatingStateManager.FloatingStateManager.OnAreaSelected | main/src/main/java/multi/translator/onscreenocr/floatings/manager/FloatingStateManager.kt:113-121 | While circling, it stores both rectangles and ends in ScreenCircled, moving only if not already there |
| FloatingStateManager.FloatingStateManager.CancelScreenCircling | main/src/main/java/multi/translator/onscreenocr/floatings/manager/FloatingStateManager.kt:123-127 | From either circling state it moves to Idle; otherwise nothing changes |
| TranslationSelectPanel.OCRLangItems | main/src/main/java/multi/translator/onscreenocr/floatings/translationSelectPanel/TranslationSelectPanelViewModel.kt:52-62 | One row per catalog language, copying its fields; a download icon iff the model is missing |
| TranslationSelectPanel.OCRLangItemsKeepCatalog | main/src/main/java/multi/translator/onscreenocr/floatings/translationSelectPanel/TranslationSelectPanelViewModel.kt:52-62 | The catalog is read back unchanged from the rows |
| TranslationSelectPanel.TranslateLangItems | main/src/main/java/multi/translator/onscreenocr/floatings/translationSelectPanel/TranslationSelectPanelViewModel.kt:86-87 | One row per language, with its code, name and selection |
| TranslationSelectPanel.TranslationViewOf | main/src/main/java/multi/translator/onscreenocr/floatings/translationSelectPanel/TranslationSelectPanelViewModel.kt:72-94 | No languages: the provider's hint. A supported OCR language: the rows and no hint. Otherwise the does-not-support hint |
| TranslationSelectPanel.RowsOnlyForSupportedOcrLang | main/src/main/java/multi/translator/onscreenocr/floatings/translationSelectPanel/TranslationSelectPanelViewModel.kt:72-94 | Rows appear iff there is no hint and some language shares the OCR language's primary subtag; a hint never comes with rows |
| TranslationSelectPanel.SelectOCRLang | main/src/main/java/multi/translator/onscreenocr/floatings/translationSelectPanel/TranslationSelectPanelViewModel.kt:108-116 | Picked rows become selected without a download icon, other selected rows are deselected, the rest are unchanged |
| TranslationSelectPanel.SelectOCRLangSelectsExactlyPicked | main/src/main/java/multi/translator/onscreenocr/floatings/translationSelectPanel/TranslationSelectPanelViewModel.kt:108-116 | Exactly the picked rows are selected and none offers a download; selecting again changes nothing |
| TranslationSelectPanel.CheckTranslationLang | main/src/main/java/multi/translator/onscreenocr/floatings/translationSelectPanel/TranslationSelectPanelViewModel.kt:186-194 | Codes and names are kept; a row is selected iff its code is the checked one |
| TranslationSelectPanel.CheckedAtMostOne | main/src/main/java/multi/translator/onscreenocr/floatings/translationSelectPanel/TranslationSelectPanelViewModel.kt:186-194 | With distinct codes, at most one target language is checked |
| TranslationSelectPanel.DownloadOCRModel | main/src/main/java/multi/translator/onscreenocr/floatings/translationSelectPanel/TranslationSelectPanelViewModel.kt:122-170 | Succeeds iff confirmed, a Tesseract language, and the download returns true. An error shows iff that download fails without being cancelled: the unknown message for false, the exception's text otherwise |
| TranslationSelectPanel.TranslationSelectPanelViewModel.constructor | main/src/main/java/multi/translator/onscreenocr/floatings/translationSelectPanel/TranslationSelectPanelViewModel.kt:24-47 | Every observable starts empty |
| TranslationSelectPanel.TranslationSelectPanelViewModel.LoadTranslationLanguageList | main/src/main/java/multi/translator/onscreenocr/floatings/translationSelectPanel/TranslationSelectPanelViewModel.kt:72-94 | Shows TranslationViewOf the provider's languages (ML Kit's for the resolved target, none for the others) with the provider's hint; only the target language may change, and only ML Kit resolves it |
| TranslationSelectPanel.TranslationSelectPanelViewModel.Load | main/src/main/java/multi/translator/onscreenocr/floatings/translationSelectPanel/TranslationSelectPanelViewModel.kt:49-70 | Shows the OCR rows of the catalog and the stored provider's name, then that provider's TranslationViewOf; the provider list and error dialogs are kept, and only the target language may change in the preferences |
| TranslationSelectPanel.TranslationSelectPanelViewModel.OnOCRLangSelected | main/src/main/java/multi/translator/onscreenocr/floatings/translationSelectPanel/TranslationSelectPanelViewModel.kt:96-120 | A row needing a download that fails changes nothing but the error dialog. Otherwise the language and engine are stored and nothing else; when rows exist they are re-selected and the stored provider's TranslationViewOf is shown for the new OCR language |
| TranslationSelectPanel.TranslationSelectPanelViewModel.OnTranslationProviderClicked | main/src/main/java/multi/translator/onscreenocr/floatings/translationSelectPanel/TranslationSelectPanelViewModel.kt:172-176 | Lists every provider with the stored one selected; nothing else changes |
| TranslationSelectPanel.TranslationSelectPanelViewModel.OnTranslationProviderSelected | main/src/main/java/multi/translator/onscreenocr/floatings/translationSelectPanel/TranslationSelectPanelViewModel.kt:178-184 | Stores the resolved provider and shows its name and its TranslationViewOf; the preferences change only in provider and resolved target language; a non-translation provider shows a hint and no rows |
| TranslationSelectPanel.TranslationSelectPanelViewModel.OnTranslationLangChecked | main/src/main/java/multi/translator/onscreenocr/floatings/translationSelectPanel/TranslationSelectPanelViewModel.kt:186-194 | Stores the target language and checks its row only; the other rows' fields, the hint, the provider name and the provider list are kept |
| MainBar.MenuRequest | main/src/main/java/multi/translator/onscreenocr/floatings/main/MainBarViewModel.kt:176-197 | Each menu key gives its own request, and a key that is not a menu item gives none |
| MainBar.MenuEntriesDistinct | main/src/main/java/multi/translator/onscreenocr/floatings/main/MainBarViewModel.kt:72-78 | Different menu entries lead to different requests |
| MainBar.ButtonsFor | main/src/main/java/multi/translator/onscreenocr/floatings/main/MainBarViewModel.kt:132-138 | Select only in Idle, translate only in ScreenCircled, close in either circling state |
| MainBar.ButtonsFollowTransitions | main/src/main/java/multi/translator/onscreenocr/floatings/main/MainBarViewModel.kt:132-138 | Select is shown iff circling may start, translate iff capturing may start; close only where Idle is allowed; nothing shows after the circled state |
| MainBar.DisplayLangCode | main/src/main/java/multi/translator/onscreenocr/floatings/main/MainBarViewModel.kt:152-154 | Tesseract codes are shown as they are; ML Kit codes as their ISO 639 code |
| MainBar.LanguageText | main/src/main/java/multi/translator/onscreenocr/floatings/main/MainBarViewModel.kt:159-163 | "ocr>" for the Google Translate app, " ocr " for OCR-only, "ocr>target" for ML Kit |
| MainBar.LanguageTextDeterminesLanguages | main/src/main/java/multi/translator/onscreenocr/floatings/main/MainBarViewModel.kt:159-163 | For ML Kit the label determines both languages when OCR codes contain no '>' |
| MainBar.MainBarViewModel.constructor | main/src/main/java/multi/translator/onscreenocr/floatings/main/MainBarViewModel.kt:84-91 | The default languages and provider, nothing displayed and no requests |
| MainBar.MainBarViewModel.SetupButtons | main/src/main/java/multi/translator/onscreenocr/floatings/main/MainBarViewModel.kt:132-138 | Shows ButtonsFor the state and changes nothing else |
| MainBar.MainBarViewModel.OnStateChanged | main/src/main/java/multi/translator/onscreenocr/floatings/main/MainBarViewModel.kt:125-129 | Shows the state's buttons and reschedules the fade-out once |
| MainBar.MainBarViewModel.OnSelectedLangChanged | main/src/main/java/multi/translator/onscreenocr/floatings/main/MainBarViewModel.kt:141-167 | Absent arguments keep their values. The icon shows iff the provider is the Google Translate app. The label is LanguageText of the display code. Each button field, the menu, the reschedule count and the requests are kept |
| MainBar.MainBarViewModel.OnMenuButtonClicked | main/src/main/java/multi/translator/onscreenocr/floatings/main/MainBarViewModel.kt:169-174 | Shows the menu items; nothing else changes |
| MainBar.MainBarViewModel.OnMenuItemClicked | main/src/main/java/multi/translator/onscreenocr/floatings/main/MainBarViewModel.kt:176-197 | Adds the item's request, or none for an unknown key; every other field is kept |
| MainBar.MainBarViewModel.ShowPendingPages | main/src/main/java/multi/translator/onscreenocr/floatings/main/MainBarViewModel.kt:112-122 | Shows the current buttons, then requests the readme and the version history each iff its check says not yet shown; both checks store their versions; the label, icon, menu, reschedule count and selected languages are kept |
| MainBar.MainBarViewModel.SaveLastPosition | main/src/main/java/multi/translator/onscreenocr/floatings/main/MainBarViewModel.kt:199-203 | Only the stored main-bar position changes |

## Left out

- Android views, rendering, animation, toasts, Firebase logging and remote configuration are left out. The app's service, activities and fragments are left out too.
- Coroutines and flows are sequential calls: each launched block runs to its end before the next event. Race conditions between flows are not modelled.
- The screen capture, the OCR engines' recognition, ML Kit's translation and model manager, the Tesseract data download, the installed-app check and the user's answers to dialogs are outside the model. Their outcomes are method parameters.
- Android string resources are the constant text `"@string/<name>"`. The translated texts are not modelled.
- Kotlin's 32-bit `Int` and 64-bit `Long` are unbounded integers. The timeouts are an `Int` times `1000L`, computed in `Long`, so they cannot overflow and the unbounded product is exact.
- Kotlin's `String.compareTo` compares UTF-16 code units, and the model compares Dafny characters. The sort is proved sorted and a permutation, but not stable.
- `startsWith(ignoreCase = true)` folds ASCII letters only.
- The language resource arrays read by position (ML Kit's codes and names, Tesseract's codes, inner codes and names) are assumed to have matching lengths. The functions that read them require it; the source would throw an index-out-of-bounds exception otherwise, and that error path is not modelled.
- The `TextRecognizer` interface and its companion are not part of this model: the engine dispatch, the cached language lists and `invalidSupportLanguages`. Settings.InvalidatesOcrLanguageCache states only when the cache is cleared. After a Tesseract download, the call that invalidates the language list is also not modelled.
- The pass-through getters of GeneralRepository (`isRememberLastSelection`, `isAutoCopyOCRResult`, `hideRecognizedTextAfterTranslated`) are the Settings getters they return.
- `opaquePercentageToFadeOut` is a float setting and is left out.
- The flow collectors of `onAttachedToScreen` are not modelled. Each value they deliver is an `OnStateChanged` or `OnSelectedLangChanged` call.
- The cancel dialog of the OCR model download is the `cancelled` input of `DownloadOCRModel`.
- `backToIdle` does not recycle the cropped bitmap. The code recycles it only after a successful recognition, and the model follows the code.
- FloatingStateManager.FloatingStateManager.StartTranslation: its end state is not stated on the method itself. FloatingStateManager.TranslationEffectsLegal proves where its logged moves end, and FloatingStateManager.FloatingStateManager.Capture states the end of a whole session.
- FloatingStateManager.FloatingStateManager.StartRecognition: the same; FloatingStateManager.RecognitionEffectsLegal proves the end state of its logged moves.
- FloatingStateManager.FloatingStateManager.StartScreenCapturing: its end state is stated on FloatingStateManager.FloatingStateManager.Capture, the body it runs, and not repeated on the method.
- MLKitRecognizer.BoxesOf: its own contract only bounds the number of boxes. Which boxes, in which order and how often are stated by MLKitRecognizer.BoxesOfMembers, MLKitRecognizer.BoxesOfAppend and MLKitRecognizer.BoxesOfSingle.
- GoogleMLKitTranslator.Candidates: its own contract only bounds the length. Membership and order are stated by GoogleMLKitTranslator.CandidatesMembers, GoogleMLKitTranslator.CandidatesAppend and GoogleMLKitTranslator.CandidatesSingle.
- MLKitRecognizer.Catalog, Recognition.DistinctByName, GoogleMLKitTranslator.ListMinus and GeneralRepository.VersionHistory: their order is stated by the `…Append` and `…Single` lemmas beside them, not in their own contracts.
- `getVersionHistory` reads the version codes and messages from app resources. They are parameters here.
- The result view (`ResultView`) and the version-history and readme views only display what the model hands them, and are left out.
