/**
 * recognition/TesseractTextRecognizer.kt: the Tesseract recognizer. A language
 * is downloaded when its trained-data file "<inner code>.traineddata" is in the
 * tessdata folder; the catalog comes from three parallel resource arrays (the
 * ISO 639-3 inner codes, the ISO 639-1 display codes and the names), sorted by
 * name.
 */
module TesseractRecognizer {
  import opened Wrappers
  import opened Graphics
  import opened Recognition

  const TRAINED_DATA_FILE_NAME_SUFFIX: string := ".traineddata"

  /** `getTessDataFile`: the file name of a language's trained data. */
  function TessDataFileName(langCode: string): (name: string)
    ensures EndsWith(name, TRAINED_DATA_FILE_NAME_SUFFIX)
    ensures StripSuffix(name) == langCode
  {
    var name := langCode + TRAINED_DATA_FILE_NAME_SUFFIX;
    assert name[..|langCode|] == langCode;
    assert name[|langCode|..] == TRAINED_DATA_FILE_NAME_SUFFIX;
    name
  }

  predicate EndsWith(name: string, suffix: string)
  {
    |suffix| <= |name| && name[|name| - |suffix|..] == suffix
  }

  /** The name without the trained-data suffix. */
  function StripSuffix(name: string): (code: string)
    requires EndsWith(name, TRAINED_DATA_FILE_NAME_SUFFIX)
    ensures code + TRAINED_DATA_FILE_NAME_SUFFIX == name
  {
    name[..|name| - |TRAINED_DATA_FILE_NAME_SUFFIX|]
  }

  /** A trained-data file name is its language code followed by the suffix. */
  lemma StripSuffixRoundTrip(name: string)
    requires EndsWith(name, TRAINED_DATA_FILE_NAME_SUFFIX)
    ensures TessDataFileName(StripSuffix(name)) == name
  {
    assert name == name[..|name| - |TRAINED_DATA_FILE_NAME_SUFFIX|] + name[|name| - |TRAINED_DATA_FILE_NAME_SUFFIX|..];
  }

  /**
   * `getDownloadedLangCodes`: empty when the folder cannot be created or listed,
   * otherwise the codes of the trained-data files in `listing`.
   */
  function DownloadedLangCodes(folderReady: bool, listing: Option<seq<string>>): (codes: set<string>)
    ensures forall code :: code in codes <==>
      folderReady && listing.Some? && TessDataFileName(code) in listing.value
  {
    if !folderReady || listing.None? then {}
    else
      var codes := set n | n in listing.value && EndsWith(n, TRAINED_DATA_FILE_NAME_SUFFIX) :: StripSuffix(n);
      assert forall code :: code in codes ==> TessDataFileName(code) in listing.value by {
        forall code | code in codes ensures TessDataFileName(code) in listing.value {
          var n :| n in listing.value && EndsWith(n, TRAINED_DATA_FILE_NAME_SUFFIX) && StripSuffix(n) == code;
          StripSuffixRoundTrip(n);
        }
      }
      codes
  }

  /** The entry of catalog position `i`. */
  function Entry(innerCode: string, displayCode: string, name: string, downloaded: set<string>): RecognitionLanguage
  {
    RecognitionLanguage(displayCode, name, false, innerCode in downloaded, Tesseract, innerCode, false)
  }

  /** The `mapNotNull` over the indices of the inner-code array (it never drops an entry). */
  function Catalog(innerCodes: seq<string>, displayCodes: seq<string>, names: seq<string>, downloaded: set<string>)
    : (r: seq<RecognitionLanguage>)
    requires |innerCodes| <= |displayCodes| && |innerCodes| <= |names|
    ensures |r| == |innerCodes|
    ensures forall i :: 0 <= i < |r| ==> r[i] == Entry(innerCodes[i], displayCodes[i], names[i], downloaded)
  {
    if innerCodes == [] then []
    else
      var rest := Catalog(innerCodes[1..], displayCodes[1..], names[1..], downloaded);
      [Entry(innerCodes[0], displayCodes[0], names[0], downloaded)] + rest
  }

  /**
   * `getSupportedLanguageList`: every language of the arrays, sorted by name; a
   * language is downloaded exactly when its inner code has a trained-data file.
   */
  function GetSupportedLanguageList(innerCodes: seq<string>, displayCodes: seq<string>, names: seq<string>,
                                    folderReady: bool, listing: Option<seq<string>>): (r: seq<RecognitionLanguage>)
    requires |innerCodes| <= |displayCodes| && |innerCodes| <= |names|
    ensures SortedByName(r)
    ensures multiset(r) == multiset(Catalog(innerCodes, displayCodes, names, DownloadedLangCodes(folderReady, listing)))
    ensures |r| == |innerCodes|
    ensures forall e :: e in r ==>
      e.recognizer == Tesseract && !e.selected && (e.downloaded <==> folderReady && listing.Some? && TessDataFileName(e.innerCode) in listing.value)
  {
    var catalog := Catalog(innerCodes, displayCodes, names, DownloadedLangCodes(folderReady, listing));
    var r := SortByName(catalog);
    forall e | e in r ensures e in catalog {
      assert e in multiset(r);
    }
    r
  }

  /**
   * `recognize`: the engine is started with the trained data of the inner code;
   * the result is labelled with the display code, never the inner code.
   */
  function Recognize(lang: RecognitionLanguage, engineText: string, engineBoxes: seq<Rect>)
    : (r: (string, RecognitionResult))
    ensures r.0 == TessDataFileName(lang.innerCode)
    ensures r.1.langCode == lang.code && r.1.result == engineText && r.1.boundingBoxes == engineBoxes
  {
    (TessDataFileName(lang.innerCode), RecognitionResult(lang.code, engineText, engineBoxes))
  }

  /** `parseToDisplayLangCode`: Tesseract's result codes are already display codes. */
  function ParseToDisplayLangCode(langCode: string): (r: string)
    ensures r == langCode
  {
    langCode
  }
}
