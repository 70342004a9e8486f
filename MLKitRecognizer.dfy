/**
 * recognition/GoogleMLKitTextRecognizer.kt: the on-device ML Kit recognizer.
 * Its catalog comes from two parallel resource arrays, codes and names; a
 * recognition picks a script from the OCR language stored in AppPref, reuses
 * one engine client per script, and joins the recognized text blocks with the
 * separator chosen in the settings.
 */
module MLKitRecognizer {
  import opened Wrappers
  import opened Errors
  import opened Graphics
  import opened Recognition
  import opened LangTag
  import opened Settings
  import opened Prefs

  const DEVANAGARI_LANG_CODES: seq<string> := ["hi", "mr", "ne", "sa"]

  /** The ML Kit recognizer options, one per writing system. */
  datatype ScriptType = Latin | Chinese | Devanagari | Japanese | Korean

  /** The script for a language: Japanese, Korean, Chinese (any "zh" tag), Devanagari, else Latin. */
  function GetScriptType(lang: string): (t: ScriptType)
    ensures t == Japanese <==> lang == "ja"
    ensures t == Korean <==> lang == "ko"
    ensures t == Chinese <==> "zh" <= lang
    ensures t == Devanagari <==> lang in DEVANAGARI_LANG_CODES
    ensures t == Latin <==> lang != "ja" && lang != "ko" && !("zh" <= lang) && lang !in DEVANAGARI_LANG_CODES
  {
    if lang == "ja" then Japanese
    else if lang == "ko" then Korean
    else if "zh" <= lang then Chinese
    else if lang in DEVANAGARI_LANG_CODES then Devanagari
    else Latin
  }

  lemma ScriptTypeExamples()
    ensures GetScriptType("zh-Hant") == Chinese && GetScriptType("zh") == Chinese
    ensures GetScriptType("ja-JP") == Latin
    ensures GetScriptType("hi") == Devanagari && GetScriptType("en") == Latin
  {
    assert "ja-JP"[0] != "zh"[0];
    assert "zh" <= "zh-Hant";
  }

  /** `toISO639`: the language subtag, everything before the first '-'. */
  function ToISO639(lang: string): (r: string)
    ensures r <= lang && '-' !in r
    ensures |r| < |lang| ==> lang[|r|] == '-'
    ensures '-' !in lang ==> r == lang
  {
    FirstPart(lang)
  }

  /** `parseToDisplayLangCode` maps a code to its language subtag, so applying it twice changes nothing. */
  lemma ParseToDisplayLangCodeIdempotent(lang: string)
    ensures ToISO639(ToISO639(lang)) == ToISO639(lang)
    ensures ToISO639("zh-Hant") == "zh"
  {
    FirstPartExamples();
  }

  /** ASCII letter case folding. */
  function Lower(c: char): char
  {
    if 'A' <= c <= 'Z' then (c as int + 32) as char else c
  }

  /** `startsWith(prefix, ignoreCase = true)`, folding ASCII letters. */
  predicate StartsWithIgnoreCase(s: string, prefix: string)
  {
    prefix == [] || (s != [] && Lower(s[0]) == Lower(prefix[0]) && StartsWithIgnoreCase(s[1..], prefix[1..]))
  }

  /** The prefix test compares character by character, after folding. */
  lemma {:induction false} StartsWithIgnoreCaseMeans(s: string, prefix: string)
    ensures StartsWithIgnoreCase(s, prefix) <==>
      |prefix| <= |s| && forall i :: 0 <= i < |prefix| ==> Lower(s[i]) == Lower(prefix[i])
  {
    if prefix != [] && s != [] {
      StartsWithIgnoreCaseMeans(s[1..], prefix[1..]);
      assert forall i :: 1 <= i < |prefix| && i < |s| ==> s[i] == s[1..][i - 1] && prefix[i] == prefix[1..][i - 1];
    }
  }

  /** The string with every ASCII capital folded to lower case. */
  function LowerAll(s: string): (r: string)
    ensures |r| == |s| && forall i :: 0 <= i < |s| ==> r[i] == Lower(s[i])
  {
    if s == [] then [] else [Lower(s[0])] + LowerAll(s[1..])
  }

  /** Against a prefix without capitals, the case-blind test is a plain prefix test on the folded string. */
  lemma StartsWithLowerPrefix(s: string, prefix: string)
    requires forall i :: 0 <= i < |prefix| ==> !('A' <= prefix[i] <= 'Z')
    ensures StartsWithIgnoreCase(s, prefix) <==> prefix <= LowerAll(s)
  {
    StartsWithIgnoreCaseMeans(s, prefix);
  }

  /** Historic language names ("Old …", "Middle …") are left out of the catalog. */
  predicate IsObsoleteName(name: string)
  {
    StartsWithIgnoreCase(name, "old ") || StartsWithIgnoreCase(name, "middle ")
  }

  /** A name is obsolete exactly when, with capitals folded, it starts with "old " or "middle ". */
  lemma ObsoleteNameMeans(name: string)
    ensures IsObsoleteName(name) <==> "old " <= LowerAll(name) || "middle " <= LowerAll(name)
  {
    StartsWithLowerPrefix(name, "old ");
    StartsWithLowerPrefix(name, "middle ");
  }

  lemma ObsoleteNameExamples()
    ensures IsObsoleteName("Old English")
    ensures !IsObsoleteName("English") && !IsObsoleteName("Old")
  {
  }

  /** Case is ignored: "MIDDLE french" is obsolete too. */
  lemma MiddleNameExample()
    ensures IsObsoleteName("MIDDLE french")
  {
    assert StartsWithIgnoreCase("MIDDLE french", "middle ");
  }

  /** The catalog entry of one ML Kit language: preinstalled, not selected, its own inner code. */
  function Entry(code: string, name: string): RecognitionLanguage
  {
    RecognitionLanguage(code, name, false, true, GoogleMLKitOcr, code, false)
  }

  /** The `mapNotNull` over the indices of the code array: an entry per non-obsolete name, in order. */
  function Catalog(codes: seq<string>, names: seq<string>): (r: seq<RecognitionLanguage>)
    requires |codes| <= |names|
    ensures |r| <= |codes|
    ensures forall e :: e in r ==> exists i :: 0 <= i < |codes| && !IsObsoleteName(names[i]) && e == Entry(codes[i], names[i])
    ensures forall i :: 0 <= i < |codes| && !IsObsoleteName(names[i]) ==> Entry(codes[i], names[i]) in r
  {
    if codes == [] then []
    else
      var rest := Catalog(codes[1..], names[1..]);
      assert forall i :: 1 <= i < |codes| ==> codes[i] == codes[1..][i - 1] && names[i] == names[1..][i - 1];
      assert forall e :: e in rest ==> exists i :: 1 <= i < |codes| && !IsObsoleteName(names[i]) && e == Entry(codes[i], names[i]) by {
        forall e | e in rest ensures exists i :: 1 <= i < |codes| && !IsObsoleteName(names[i]) && e == Entry(codes[i], names[i]) {
          var j :| 0 <= j < |codes| - 1 && !IsObsoleteName(names[1..][j]) && e == Entry(codes[1..][j], names[1..][j]);
          assert codes[1..][j] == codes[j + 1] && names[1..][j] == names[j + 1];
        }
      }
      if IsObsoleteName(names[0]) then rest else [Entry(codes[0], names[0])] + rest
  }

  /**
   * The catalog follows the arrays index by index: one pair gives its entry
   * unless the name is obsolete, and the catalog of concatenated arrays is the
   * concatenation of the catalogs, so entries keep the arrays' order.
   */
  lemma {:induction false} CatalogAppend(c1: seq<string>, n1: seq<string>, c2: seq<string>, n2: seq<string>)
    requires |c1| == |n1| && |c2| <= |n2|
    ensures Catalog(c1 + c2, n1 + n2) == Catalog(c1, n1) + Catalog(c2, n2)
  {
    if c1 == [] {
      assert c1 + c2 == c2 && n1 + n2 == n2;
    } else {
      assert (c1 + c2)[0] == c1[0] && (c1 + c2)[1..] == c1[1..] + c2;
      assert (n1 + n2)[0] == n1[0] && (n1 + n2)[1..] == n1[1..] + n2;
      var head := if IsObsoleteName(n1[0]) then [] else [Entry(c1[0], n1[0])];
      CatalogAppend(c1[1..], n1[1..], c2, n2);
      var p, q := Catalog(c1[1..], n1[1..]), Catalog(c2, n2);
      assert Catalog(c1 + c2, n1 + n2) == head + (p + q);
      assert Catalog(c1, n1) == head + p;
      AppendAssoc(head, p, q);
    }
  }

  /** A single pair gives its entry unless the name is obsolete. */
  lemma CatalogSingle(code: string, name: string)
    ensures Catalog([code], [name]) == if IsObsoleteName(name) then [] else [Entry(code, name)]
  {
    assert [code][1..] == [] && [name][1..] == [];
  }

  /**
   * `getSupportedLanguageList`: the catalog without obsolete names, one entry per
   * display name (the first listed), sorted by display name.
   */
  function GetSupportedLanguageList(codes: seq<string>, names: seq<string>): (r: seq<RecognitionLanguage>)
    requires |codes| <= |names|
    ensures SortedByName(r) && NamesDistinct(r)
    ensures forall e :: e in r ==> e in Catalog(codes, names)
    ensures forall e :: e in r ==>
      !IsObsoleteName(e.displayName) && e.downloaded && !e.selected && e.innerCode == e.code && e.recognizer == GoogleMLKitOcr
    ensures forall i :: 0 <= i < |codes| && !IsObsoleteName(names[i]) ==> names[i] in Names(r)
  {
    var catalog := Catalog(codes, names);
    var distinct := DistinctByName(catalog, {});
    var r := SortByName(distinct);
    SortKeepsNamesDistinct(distinct);
    DistinctByNameNames(catalog, {});
    forall e | e in r ensures e in distinct {
      assert e in multiset(r);
    }
    forall i | 0 <= i < |codes| && !IsObsoleteName(names[i]) ensures names[i] in Names(r) {
      var e := Entry(codes[i], names[i]);
      assert e in catalog;
      assert names[i] in Names(catalog);
      assert names[i] in Names(distinct);
      var d :| d in distinct && d.displayName == names[i];
      assert d in multiset(distinct);
      assert d in r;
    }
    r
  }

  /**
   * For each display name, the list holds the entry of the first index with
   * that name (names are never both obsolete and not, so the first index is
   * the first non-obsolete one), and no other entry with that name.
   */
  lemma GetSupportedLanguageListFirstListed(codes: seq<string>, names: seq<string>, i: int)
    requires |codes| <= |names| && 0 <= i < |codes| && !IsObsoleteName(names[i])
    requires forall j :: 0 <= j < i ==> names[j] != names[i]
    ensures Entry(codes[i], names[i]) in GetSupportedLanguageList(codes, names)
    ensures forall e :: e in GetSupportedLanguageList(codes, names) && e.displayName == names[i] ==> e == Entry(codes[i], names[i])
  {
    var catalog := Catalog(codes, names);
    var k := CatalogSplit(codes, names, i);
    DistinctByNameKeepsFirst(catalog, {}, k);
    var distinct := DistinctByName(catalog, {});
    assert Entry(codes[i], names[i]) in multiset(distinct);
    assert Entry(codes[i], names[i]) in multiset(GetSupportedLanguageList(codes, names));
  }

  /** The entry of a non-obsolete index `i` sits in the catalog after entries of earlier indices only. */
  lemma CatalogSplit(codes: seq<string>, names: seq<string>, i: int) returns (k: int)
    requires |codes| <= |names| && 0 <= i < |codes| && !IsObsoleteName(names[i])
    requires forall j :: 0 <= j < i ==> names[j] != names[i]
    ensures 0 <= k < |Catalog(codes, names)| && Catalog(codes, names)[k] == Entry(codes[i], names[i])
    ensures forall j :: 0 <= j < k ==> Catalog(codes, names)[j].displayName != names[i]
  {
    var before := Catalog(codes[..i], names[..i]);
    var after := Catalog(codes[i..], names[i..]);
    assert codes == codes[..i] + codes[i..] && names == names[..i] + names[i..];
    CatalogAppend(codes[..i], names[..i], codes[i..], names[i..]);
    assert codes[i..][0] == codes[i] && names[i..][0] == names[i];
    assert after[0] == Entry(codes[i], names[i]);
    k := |before|;
    forall j | 0 <= j < k ensures Catalog(codes, names)[j].displayName != names[i] {
      assert before[j] in before;
    }
  }

  /** A block of recognized text, with the box it was found in when the engine gives one. */
  datatype TextBlock = TextBlock(text: string, boundingBox: Option<Rect>)

  /** Kotlin `joinToString(separator)`. */
  function JoinToString(parts: seq<string>, separator: string): (r: string)
    ensures |parts| > 0 ==> parts[0] <= r
  {
    if parts == [] then ""
    else if |parts| == 1 then parts[0]
    else parts[0] + separator + JoinToString(parts[1..], separator)
  }

  function TotalLength(parts: seq<string>): nat
  {
    if parts == [] then 0 else |parts[0]| + TotalLength(parts[1..])
  }

  /** The joined text holds every part and one separator between each two neighbours. */
  lemma {:induction false} JoinToStringLength(parts: seq<string>, separator: string)
    ensures |parts| > 0 ==> |JoinToString(parts, separator)| == TotalLength(parts) + (|parts| - 1) * |separator|
    ensures parts == [] ==> JoinToString(parts, separator) == ""
  {
    if |parts| > 1 {
      JoinToStringLength(parts[1..], separator);
    }
  }

  /** One part joins to itself, with no separator. */
  lemma JoinToStringSingle(part: string, separator: string)
    ensures JoinToString([part], separator) == part
  {
  }

  /**
   * Appending a part to a non-empty list appends one separator and the part
   * to the joined text; with JoinToStringSingle this fixes the joined text
   * part by part.
   */
  lemma {:induction false} JoinToStringAppend(parts: seq<string>, part: string, separator: string)
    requires |parts| > 0
    ensures JoinToString(parts + [part], separator) == JoinToString(parts, separator) + separator + part
  {
    assert (parts + [part])[0] == parts[0];
    if |parts| == 1 {
      assert (parts + [part])[1..] == [part];
    } else {
      assert (parts + [part])[1..] == parts[1..] + [part];
      JoinToStringAppend(parts[1..], part, separator);
      var head, rest := parts[0] + separator, JoinToString(parts[1..], separator);
      assert JoinToString(parts + [part], separator) == head + (rest + separator + part);
      assert JoinToString(parts, separator) == head + rest;
      AppendAssoc(head, rest, separator + part);
    }
  }

  /** Joining with the empty separator (`TextBlockJoiner.None`) concatenates the parts. */
  lemma {:induction false} JoinWithoutSeparator(parts: seq<string>)
    ensures JoinToString(parts, "") == Concat(parts)
  {
    if |parts| > 1 {
      JoinWithoutSeparator(parts[1..]);
      assert Concat(parts[1..]) == parts[1] + Concat(parts[2..]);
    }
  }

  function Concat(parts: seq<string>): string
  {
    if parts == [] then "" else parts[0] + Concat(parts[1..])
  }

  function Texts(blocks: seq<TextBlock>): (r: seq<string>)
    ensures |r| == |blocks| && forall i :: 0 <= i < |blocks| ==> r[i] == blocks[i].text
  {
    if blocks == [] then [] else [blocks[0].text] + Texts(blocks[1..])
  }

  /** `mapNotNull { it.boundingBox }`: the boxes that exist, in order. */
  function BoxesOf(blocks: seq<TextBlock>): (r: seq<Rect>)
    ensures |r| <= |blocks|
    ensures (forall k :: k in blocks ==> k.boundingBox.Some?) ==> |r| == |blocks|
  {
    if blocks == [] then []
    else
      var rest := BoxesOf(blocks[1..]);
      match blocks[0].boundingBox
      case Some(b) => [b] + rest
      case None => rest
  }

  /** The boxes are exactly those the blocks carry. */
  lemma {:induction false} BoxesOfMembers(blocks: seq<TextBlock>)
    ensures forall b :: b in BoxesOf(blocks) <==> exists k :: k in blocks && k.boundingBox == Some(b)
  {
    if blocks != [] {
      BoxesOfMembers(blocks[1..]);
      assert forall k :: k in blocks <==> k == blocks[0] || k in blocks[1..];
    }
  }

  /**
   * Boxes come block by block: one block gives its box if it has one, and
   * the boxes of concatenated blocks are the concatenated boxes, in order.
   */
  lemma {:induction false} BoxesOfAppend(a: seq<TextBlock>, b: seq<TextBlock>)
    ensures BoxesOf(a + b) == BoxesOf(a) + BoxesOf(b)
  {
    if a == [] {
      assert a + b == b;
    } else {
      assert (a + b)[0] == a[0] && (a + b)[1..] == a[1..] + b;
      var head := if a[0].boundingBox.Some? then [a[0].boundingBox.value] else [];
      BoxesOfAppend(a[1..], b);
      var p, q := BoxesOf(a[1..]), BoxesOf(b);
      assert BoxesOf(a + b) == head + (p + q);
      assert BoxesOf(a) == head + p;
      AppendAssoc(head, p, q);
    }
  }

  /** A single block gives its box when it has one, and nothing otherwise. */
  lemma BoxesOfSingle(k: TextBlock)
    ensures BoxesOf([k]) == if k.boundingBox.Some? then [k.boundingBox.value] else []
  {
    assert [k][1..] == [];
  }

  /** The recognition result for the blocks an engine found in the image. */
  function ResultOf(lang: string, blocks: seq<TextBlock>, joiner: TextBlockJoiner): (r: RecognitionResult)
    ensures r.langCode == ToISO639(lang)
    ensures |blocks| > 0 ==> blocks[0].text <= r.result
    ensures r.result == JoinToString(Texts(blocks), joiner.Joiner())
    ensures r.boundingBoxes == BoxesOf(blocks)
    ensures |r.boundingBoxes| <= |blocks|
  {
    RecognitionResult(ToISO639(lang), JoinToString(Texts(blocks), joiner.Joiner()), BoxesOf(blocks))
  }

  /** An engine client, built with the options of one script. */
  datatype Client = Client(script: ScriptType)

  class GoogleMLKitTextRecognizer {
    /** `recognizerMap`: the clients built so far. */
    var recognizerMap: map<ScriptType, Client>
    /** How many clients were ever built. */
    var clientsCreated: nat

    /** Every cached client has its own script's options, and each was built once. */
    predicate Valid()
      reads this
    {
      (forall s :: s in recognizerMap ==> recognizerMap[s] == Client(s))
      && clientsCreated == |recognizerMap|
    }

    constructor ()
      ensures Valid() && recognizerMap == map[]
    {
      recognizerMap := map[];
      clientsCreated := 0;
    }

    /** `recognizerMap.getOrPut(script)`: the cached client, or a new one that is cached. */
    method GetOrPut(script: ScriptType) returns (c: Client)
      requires Valid()
      modifies this
      ensures Valid()
      ensures c == Client(script)
      ensures recognizerMap == old(recognizerMap)[script := c]
      ensures clientsCreated == old(clientsCreated) + (if script in old(recognizerMap) then 0 else 1)
    {
      if script in recognizerMap {
        c := recognizerMap[script];
      } else {
        c := Client(script);
        recognizerMap := recognizerMap[script := c];
        clientsCreated := clientsCreated + 1;
      }
    }

    /**
     * `recognize`: the `lang` argument is ignored; the stored OCR language picks
     * the script and labels the result. `outcome` is what the client reports for
     * the image: its text blocks, or the failure it raises.
     */
    method Recognize(lang: RecognitionLanguage, pref: AppPref, settings: SharedPreferences,
                     outcome: Result<seq<TextBlock>, Failure>) returns (r: Result<RecognitionResult, Failure>)
      requires Valid()
      modifies this
      ensures Valid()
      ensures GetScriptType(pref.selectedOCRLang) in recognizerMap
      ensures recognizerMap.Keys == old(recognizerMap).Keys + {GetScriptType(pref.selectedOCRLang)}
      ensures outcome.Ok? ==> r == Ok(ResultOf(pref.selectedOCRLang, outcome.value, TextBlockJoinerSetting(settings)))
      ensures outcome.Err? ==> r == Err(outcome.error)
    {
      var langCode := pref.selectedOCRLang;
      var client := GetOrPut(GetScriptType(langCode));
      match outcome
      case Ok(blocks) =>
        r := Ok(ResultOf(langCode, blocks, TextBlockJoinerSetting(settings)));
      case Err(e) =>
        r := Err(e);
    }
  }

  const ALL_SCRIPTS: set<ScriptType> := {Latin, Chinese, Devanagari, Japanese, Korean}

  /** At most one client per script is ever built: five at most. */
  lemma ClientsBounded(recognizer: GoogleMLKitTextRecognizer)
    requires recognizer.Valid()
    ensures recognizer.clientsCreated <= 5
  {
    var keys := recognizer.recognizerMap.Keys;
    assert keys <= ALL_SCRIPTS by {
      forall s | s in keys ensures s in ALL_SCRIPTS {
        match s
        case Latin =>
        case Chinese =>
        case Devanagari =>
        case Japanese =>
        case Korean =>
      }
    }
    SubsetCard(keys, ALL_SCRIPTS);
    assert |ALL_SCRIPTS| == 5;
  }

  lemma {:induction false} SubsetCard<T>(a: set<T>, b: set<T>)
    requires a <= b
    ensures |a| <= |b|
  {
    if a != {} {
      var x :| x in a;
      SubsetCard(a - {x}, b - {x});
    }
  }
}
