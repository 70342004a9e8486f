/**
 * translator/GoogleMLKitTranslator.kt: on-device ML Kit translation. The
 * language list comes from two parallel resource arrays; `translate` checks its
 * preconditions in a fixed order before touching any engine client, and keeps
 * one client for the last language pair. The environment check lists the
 * translation models that the OCR and target languages need and are not yet
 * downloaded.
 *
 * ML Kit itself is outside the model: `knownTags` stands for the tags that
 * `TranslateLanguage.fromLanguageTag` accepts (it returns them unchanged), the
 * downloaded models and the outcome of each download or translation are inputs.
 */
module GoogleMLKitTranslator {
  import opened Wrappers
  import opened Errors
  import opened LangTag
  import opened TranslationTypes
  import opened Translator
  import opened Prefs

  /** `supportedLanguages` for a resolved target: one entry per code, selected iff it is the target. */
  function LanguageList(codes: seq<string>, names: seq<string>, selectedCode: string): (r: seq<TranslationLanguage>)
    requires |codes| <= |names|
    ensures |r| == |codes|
    ensures forall i :: 0 <= i < |r| ==>
      r[i].code == codes[i] && r[i].displayName == names[i] && (r[i].selected <==> codes[i] == selectedCode)
  {
    if codes == [] then []
    else
      var rest := LanguageList(codes[1..], names[1..], selectedCode);
      [TranslationLanguage(codes[0], names[0], codes[0] == selectedCode)] + rest
  }

  /** `firstOrNull { it.selected }?.code` */
  function FirstSelectedCode(langs: seq<TranslationLanguage>): (r: Option<string>)
    ensures r.None? <==> forall i :: 0 <= i < |langs| ==> !langs[i].selected
    ensures r.Some? ==> exists i :: 0 <= i < |langs| && langs[i].selected && langs[i].code == r.value
  {
    if langs == [] then None
    else if langs[0].selected then Some(langs[0].code)
    else
      var r := FirstSelectedCode(langs[1..]);
      assert forall i :: 1 <= i < |langs| ==> langs[i] == langs[1..][i - 1];
      r
  }

  /** The selected entry of the list is the resolved target, and there is one exactly when the target is listed. */
  lemma SelectedCodeIsTarget(codes: seq<string>, names: seq<string>, selectedCode: string)
    requires |codes| <= |names|
    ensures FirstSelectedCode(LanguageList(codes, names, selectedCode)).Some? <==> selectedCode in codes
    ensures selectedCode in codes ==> FirstSelectedCode(LanguageList(codes, names, selectedCode)) == Some(selectedCode)
  {
    var langs := LanguageList(codes, names, selectedCode);
    if selectedCode in codes {
      var i :| 0 <= i < |codes| && codes[i] == selectedCode;
      assert langs[i].selected;
    }
  }

  /** The key of a language pair in the one-slot client cache. */
  function LangKey(source: string, target: string): string
  {
    source + "_" + target
  }

  /** The position of the first '_' in a key, or its length when there is none. */
  function UnderscoreIndex(k: string): (i: nat)
    ensures i <= |k|
  {
    if k == [] || k[0] == '_' then 0 else 1 + UnderscoreIndex(k[1..])
  }

  /** In the key of a source tag without '_', the first '_' is the separator. */
  lemma {:induction false} SeparatorPosition(source: string, target: string)
    requires '_' !in source
    ensures UnderscoreIndex(LangKey(source, target)) == |source|
  {
    if source != [] {
      assert LangKey(source, target)[1..] == LangKey(source[1..], target);
      assert source[0] in source;
      SeparatorPosition(source[1..], target);
    }
  }

  /** Tags without '_' give distinct keys to distinct pairs. */
  lemma LangKeyInjective(s1: string, t1: string, s2: string, t2: string)
    requires '_' !in s1 && '_' !in s2
    requires LangKey(s1, t1) == LangKey(s2, t2)
    ensures s1 == s2 && t1 == t2
  {
    SeparatorPosition(s1, t1);
    SeparatorPosition(s2, t2);
    var k := LangKey(s1, t1);
    assert s1 == k[..|s1|] && t1 == k[|s1| + 1..];
    assert s2 == k[..|s2|] && t2 == k[|s2| + 1..];
  }

  const MSG_SELECTED_LANG_NOT_FOUND: string := "Selected language code is not found"

  function SourceTagFailure(sourceLangCode: string): string
  {
    "Parsing language tag failed, sourceLangCode: " + sourceLangCode
  }

  function TargetTagFailure(targetLangCode: string): string
  {
    "Parsing language tag failed, targetLangCode: " + targetLangCode
  }

  /** What `translate` decides before it reaches a client. */
  datatype TranslatePlan =
    | NotSupported
    | Failed(message: string)
    | Run(source: string, target: string)

  /**
   * The guards of `translate`, in order: the OCR language must be supported, a
   * target must be selected, and both the source's primary subtag and the
   * target must be tags ML Kit knows.
   */
  function Plan(langs: seq<TranslationLanguage>, ocrLang: string, sourceLangCode: string, knownTags: set<string>)
    : (p: TranslatePlan)
    ensures p.NotSupported? <==> !IsLangSupport(langs, ocrLang)
    ensures p.Run? <==>
      IsLangSupport(langs, ocrLang) && FirstSelectedCode(langs).Some?
      && FirstPart(sourceLangCode) in knownTags && FirstSelectedCode(langs).value in knownTags
    ensures p.Run? ==> p.source == FirstPart(sourceLangCode) && Some(p.target) == FirstSelectedCode(langs)
    ensures p.Failed? && FirstSelectedCode(langs).None? ==> p.message == MSG_SELECTED_LANG_NOT_FOUND
    ensures p.Failed? && FirstSelectedCode(langs).Some? && FirstPart(sourceLangCode) !in knownTags ==>
      p.message == SourceTagFailure(sourceLangCode)
    ensures p.Failed? && FirstSelectedCode(langs).Some? && FirstPart(sourceLangCode) in knownTags ==>
      p.message == TargetTagFailure(FirstSelectedCode(langs).value)
  {
    if !IsLangSupport(langs, ocrLang) then NotSupported
    else match FirstSelectedCode(langs)
      case None => Failed(MSG_SELECTED_LANG_NOT_FOUND)
      case Some(target) =>
        var source := FirstPart(sourceLangCode);
        if source !in knownTags then Failed(SourceTagFailure(sourceLangCode))
        else if target !in knownTags then Failed(TargetTagFailure(target))
        else Run(source, target)
  }

  /** The language codes whose models the environment check asks for. */
  function Candidates(langs: seq<TranslationLanguage>, ocrLang: string, targetLang: string): (r: seq<string>)
    ensures |r| <= |langs|
  {
    if langs == [] then []
    else
      var rest := Candidates(langs[1..], ocrLang, targetLang);
      var c := langs[0].code;
      if FirstPart(c) == FirstPart(ocrLang) || FirstPart(c) == FirstPart(targetLang) then [c] + rest else rest
  }

  /** The candidates are exactly the listed codes whose primary subtag is the OCR language's or the target's. */
  lemma {:induction false} CandidatesMembers(langs: seq<TranslationLanguage>, ocrLang: string, targetLang: string)
    ensures forall c :: c in Candidates(langs, ocrLang, targetLang) <==>
      exists l :: l in langs && l.code == c && (FirstPart(c) == FirstPart(ocrLang) || FirstPart(c) == FirstPart(targetLang))
  {
    if langs != [] {
      CandidatesMembers(langs[1..], ocrLang, targetLang);
      assert forall l :: l in langs <==> l == langs[0] || l in langs[1..];
    }
  }

  /**
   * The filter keeps list order: one language gives its code when it matches
   * either tag, and the candidates of a concatenation are the concatenation
   * of the candidates.
   */
  lemma {:induction false} CandidatesAppend(a: seq<TranslationLanguage>, b: seq<TranslationLanguage>, ocrLang: string, targetLang: string)
    ensures Candidates(a + b, ocrLang, targetLang) == Candidates(a, ocrLang, targetLang) + Candidates(b, ocrLang, targetLang)
  {
    if a == [] {
      assert a + b == b;
    } else {
      assert (a + b)[0] == a[0] && (a + b)[1..] == a[1..] + b;
      CandidatesAppend(a[1..], b, ocrLang, targetLang);
      var c := a[0].code;
      var head := if FirstPart(c) == FirstPart(ocrLang) || FirstPart(c) == FirstPart(targetLang) then [c] else [];
      var p, q := Candidates(a[1..], ocrLang, targetLang), Candidates(b, ocrLang, targetLang);
      assert Candidates(a + b, ocrLang, targetLang) == head + (p + q);
      assert Candidates(a, ocrLang, targetLang) == head + p;
      AppendAssoc(head, p, q);
    }
  }

  /** A single language gives its code exactly when it matches either tag. */
  lemma CandidatesSingle(l: TranslationLanguage, ocrLang: string, targetLang: string)
    ensures Candidates([l], ocrLang, targetLang) ==
      if FirstPart(l.code) == FirstPart(ocrLang) || FirstPart(l.code) == FirstPart(targetLang) then [l.code] else []
  {
    assert [l][1..] == [];
  }

  /** Kotlin `List - Iterable`: the elements of `a` not in `b`, in order. */
  function ListMinus(a: seq<string>, b: seq<string>): (r: seq<string>)
    ensures |r| <= |a|
    ensures forall x :: x in r <==> x in a && x !in b
    ensures (forall x :: x in a ==> x !in b) ==> r == a
  {
    if a == [] then []
    else
      var rest := ListMinus(a[1..], b);
      assert forall x :: x in a <==> x == a[0] || x in a[1..];
      if a[0] in b then rest
      else
        assert a == [a[0]] + a[1..];
        [a[0]] + rest
  }

  /**
   * `List - Iterable` goes element by element and keeps order and repeats:
   * a single element stays exactly when it is not in `b`, and the difference
   * of a concatenation is the concatenation of the differences.
   */
  lemma {:induction false} ListMinusAppend(a1: seq<string>, a2: seq<string>, b: seq<string>)
    ensures ListMinus(a1 + a2, b) == ListMinus(a1, b) + ListMinus(a2, b)
  {
    if a1 == [] {
      assert a1 + a2 == a2;
    } else {
      assert (a1 + a2)[0] == a1[0] && (a1 + a2)[1..] == a1[1..] + a2;
      ListMinusAppend(a1[1..], a2, b);
      var head := if a1[0] in b then [] else [a1[0]];
      var p, q := ListMinus(a1[1..], b), ListMinus(a2, b);
      assert ListMinus(a1 + a2, b) == head + (p + q);
      assert ListMinus(a1, b) == head + p;
      AppendAssoc(head, p, q);
    }
  }

  /** A single element stays exactly when it is not in `b`. */
  lemma ListMinusSingle(x: string, b: seq<string>)
    ensures ListMinus([x], b) == if x in b then [] else [x]
  {
    assert [x][1..] == [];
  }

  /** The dialog the environment check leaves on screen. */
  datatype ResourceDialog =
    | NoDialog
    | CheckFailed(message: string)
    | DownloadOffered(langs: seq<string>)

  /**
   * `checkTranslationResources` once the downloaded models are known (or their
   * listing failed): ready only when no candidate is missing.
   */
  function ResourceCheck(candidates: seq<string>, downloadedModels: Result<seq<string>, Failure>)
    : (r: (bool, ResourceDialog))
    ensures r.0 <==> downloadedModels.Ok? && forall c :: c in candidates ==> c in downloadedModels.value
    ensures r.0 <==> r.1 == NoDialog
    ensures downloadedModels.Err? ==> r.1 == CheckFailed(downloadedModels.error.message.GetOr("@string/error_unknown"))
    ensures downloadedModels.Ok? && !r.0 ==> r.1 == DownloadOffered(ListMinus(candidates, downloadedModels.value))
    ensures r.1.DownloadOffered? ==>
      downloadedModels.Ok? && r.1.langs == ListMinus(candidates, downloadedModels.value) && r.1.langs != []
      && forall c :: c in candidates && c !in downloadedModels.value ==> c in r.1.langs
  {
    match downloadedModels
    case Err(e) => (false, CheckFailed(e.message.GetOr("@string/error_unknown")))
    case Ok(models) =>
      var missing := ListMinus(candidates, models);
      if missing != [] then
        assert missing[0] in candidates && missing[0] !in models;
        (false, DownloadOffered(missing))
      else
        (true, NoDialog)
  }

  /** The number of languages downloaded before the first failing one: all of them if none fails. */
  function FirstFailing(langs: seq<string>, failing: map<string, Failure>): (k: nat)
    ensures k <= |langs|
    ensures forall i :: 0 <= i < k ==> langs[i] !in failing
    ensures k < |langs| ==> langs[k] in failing
  {
    if langs == [] then 0
    else if langs[0] in failing then 0
    else 1 + FirstFailing(langs[1..], failing)
  }

  /**
   * `downloadResources`: downloads the models in list order and stops at the
   * first failure, which it raises. `failing` gives the failure of each model
   * whose download fails.
   */
  method DownloadResources(langs: seq<string>, failing: map<string, Failure>)
    returns (downloaded: seq<string>, failure: Option<Failure>)
    ensures downloaded == langs[..FirstFailing(langs, failing)]
    ensures failure.None? <==> FirstFailing(langs, failing) == |langs|
    ensures failure.Some? ==> failure.value == failing[langs[|downloaded|]]
  {
    downloaded := [];
    failure := None;
    var i := 0;
    while i < |langs|
      invariant 0 <= i <= |langs|
      invariant downloaded == langs[..i]
      invariant forall j :: 0 <= j < i ==> langs[j] !in failing
      invariant failure.None?
    {
      if langs[i] in failing {
        failure := Some(failing[langs[i]]);
        FirstFailingAt(langs, failing, i);
        return;
      }
      downloaded := downloaded + [langs[i]];
      i := i + 1;
    }
    FirstFailingAt(langs, failing, i);
  }

  /** The first failing position is the first index not known to succeed. */
  lemma {:induction false} FirstFailingAt(langs: seq<string>, failing: map<string, Failure>, i: nat)
    requires i <= |langs|
    requires forall j :: 0 <= j < i ==> langs[j] !in failing
    requires i < |langs| ==> langs[i] in failing
    ensures FirstFailing(langs, failing) == i
  {
    if i > 0 {
      assert langs[0] !in failing;
      assert forall j :: 0 <= j < i - 1 ==> langs[1..][j] == langs[j + 1];
      FirstFailingAt(langs[1..], failing, i - 1);
    }
  }

  /**
   * `downloadTranslationResources`: the message of the dialog shown at the end,
   * the success message or the failure's own message.
   */
  method DownloadTranslationResources(langs: seq<string>, failing: map<string, Failure>)
    returns (downloaded: seq<string>, message: string)
    ensures downloaded == langs[..FirstFailing(langs, failing)]
    ensures (forall l :: l in langs ==> l !in failing) ==> message == "@string/msg_resouces_downloaded"
    ensures FirstFailing(langs, failing) < |langs| ==>
      message == failing[langs[FirstFailing(langs, failing)]].message.GetOr("@string/error_unknown")
  {
    var failure;
    downloaded, failure := DownloadResources(langs, failing);
    match failure
    case None => message := "@string/msg_resouces_downloaded";
    case Some(e) => message := e.message.GetOr("@string/error_unknown");
  }

  /** An engine client for one language pair; `serial` tells clients apart. */
  datatype Client = Client(serial: nat, source: string, target: string)

  function ClientSeq(c: Option<Client>): seq<Client>
  {
    if c.Some? then [c.value] else []
  }

  /** The translator's client cache: last key, last client, clients closed so far, clients built so far. */
  datatype Cache = Cache(key: Option<string>, client: Option<Client>, closed: seq<Client>, created: nat)

  const EMPTY_CACHE := Cache(None, None, [], 0)

  /** The cached client is the one built for the cached key, the latest built, and closed ones are older. */
  predicate CacheValid(c: Cache)
  {
    (c.client.Some? ==> c.key == Some(LangKey(c.client.value.source, c.client.value.target))
                        && c.client.value.serial == c.created - 1)
    && (forall i :: 0 <= i < |c.closed| ==> c.closed[i].serial < c.created)
  }

  /** The cache lookup reuses the last client only for the same key. */
  predicate Reuses(c: Cache, source: string, target: string)
  {
    c.key == Some(LangKey(source, target)) && c.client.Some?
  }

  /**
   * The cache after a translation from `source` to `target`: the last client
   * when the key matches, otherwise the last client is closed and a new one
   * built for this pair takes its slot.
   */
  function UseClient(c: Cache, source: string, target: string): (r: Cache)
    ensures r.key == Some(LangKey(source, target)) && r.client.Some?
    ensures Reuses(c, source, target) ==> r == c
    ensures !Reuses(c, source, target) ==>
      r.client == Some(Client(c.created, source, target)) && r.closed == c.closed + ClientSeq(c.client)
      && r.created == c.created + 1
    ensures CacheValid(c) ==> CacheValid(r)
  {
    if Reuses(c, source, target) then c
    else Cache(Some(LangKey(source, target)), Some(Client(c.created, source, target)),
               c.closed + ClientSeq(c.client), c.created + 1)
  }

  /** Translating the same pair twice builds at most one client: the second call reuses it. */
  lemma SecondTranslationReuses(c: Cache, source: string, target: string)
    ensures Reuses(UseClient(c, source, target), source, target)
    ensures UseClient(UseClient(c, source, target), source, target) == UseClient(c, source, target)
    ensures UseClient(c, source, target).created <= c.created + 1
  {
  }

  /** A reused client translates the requested pair (for tags without '_', as ML Kit's are). */
  lemma ReusedClientMatchesPair(c: Cache, source: string, target: string)
    requires CacheValid(c) && Reuses(c, source, target)
    requires '_' !in source && '_' !in c.client.value.source
    ensures UseClient(c, source, target).client.value.source == source
    ensures UseClient(c, source, target).client.value.target == target
  {
    LangKeyInjective(c.client.value.source, c.client.value.target, source, target);
  }

  /** The result `translate` returns for a plan and the client's outcome; a client failure propagates. */
  function TranslateResult(plan: TranslatePlan, outcome: Result<string, Failure>): (r: Result<TranslationResult, Failure>)
    ensures plan.NotSupported? ==> r == Ok(SourceLangNotSupport(GoogleMLKit))
    ensures plan.Failed? ==> r == Ok(TranslationFailed(Failure(OtherFailure, Some(plan.message))))
    ensures plan.Run? && outcome.Ok? ==> r == Ok(TranslatedResult(outcome.value, GoogleMLKit))
    ensures plan.Run? && outcome.Err? ==> r == Err(outcome.error)
    ensures r.Ok? ==> !r.value.OCROnlyResult? && !r.value.OuterTranslatorLaunched?
  {
    match plan
    case NotSupported => Ok(SourceLangNotSupport(GoogleMLKit))
    case Failed(message) => Ok(TranslationFailed(Failure(OtherFailure, Some(message))))
    case Run(_, _) =>
      match outcome
      case Ok(translated) => Ok(TranslatedResult(translated, GoogleMLKit))
      case Err(e) => Err(e)
  }

  class GoogleMLKitTranslator {
    /** The resource arrays of codes and names. */
    const codes: seq<string>
    const names: seq<string>
    /** The tags ML Kit's `fromLanguageTag` accepts. */
    const knownTags: set<string>
    var lastTranslatorLangKey: Option<string>
    var lastTranslator: Option<Client>
    /** The clients closed so far, in order. */
    var closedClients: seq<Client>
    var clientsCreated: nat

    function CacheState(): Cache
      reads this
    {
      Cache(lastTranslatorLangKey, lastTranslator, closedClients, clientsCreated)
    }

    predicate Valid()
      reads this
    {
      |codes| <= |names| && CacheValid(CacheState())
    }

    constructor (codes: seq<string>, names: seq<string>, knownTags: set<string>)
      requires |codes| <= |names|
      ensures Valid()
      ensures this.codes == codes && this.names == names && this.knownTags == knownTags
      ensures CacheState() == EMPTY_CACHE
    {
      this.codes := codes;
      this.names := names;
      this.knownTags := knownTags;
      lastTranslatorLangKey := None;
      lastTranslator := None;
      closedClients := [];
      clientsCreated := 0;
    }

    /** `supportedLanguages`: resolves the stored target (which may reset it to "en") and lists the codes. */
    method SupportedLanguages(pref: AppPref) returns (langs: seq<TranslationLanguage>)
      requires Valid()
      modifies pref
      ensures langs == LanguageList(codes, names, ResolvedLangCode(old(pref.selectedTranslationLang), codes))
      ensures pref.Values() == old(pref.Values()).(selectedTranslationLang := ResolvedLangCode(old(pref.selectedTranslationLang), codes))
    {
      var selected := SelectedLangCode(pref, codes);
      langs := LanguageList(codes, names, selected);
    }

    /** The client lookup of `translate`. */
    method GetClient(source: string, target: string) returns (client: Client)
      requires Valid()
      modifies this
      ensures Valid()
      ensures CacheState() == UseClient(old(CacheState()), source, target)
      ensures lastTranslator == Some(client)
    {
      var langKey := LangKey(source, target);
      if lastTranslatorLangKey == Some(langKey) && lastTranslator.Some? {
        client := lastTranslator.value;
      } else {
        if lastTranslator.Some? {
          closedClients := closedClients + [lastTranslator.value];
          lastTranslator := None;
        }
        client := Client(clientsCreated, source, target);
        clientsCreated := clientsCreated + 1;
        lastTranslatorLangKey := Some(langKey);
        lastTranslator := Some(client);
      }
    }

    /**
     * `translate`: `outcome` is what the client reports for the text, the
     * translation or the failure it raises (an `Err` result). The guards run
     * before the cache is consulted, so a refused call leaves it untouched.
     */
    method Translate(pref: AppPref, text: string, sourceLangCode: string, outcome: Result<string, Failure>)
      returns (r: Result<TranslationResult, Failure>)
      requires Valid()
      modifies this, pref
      ensures Valid()
      ensures pref.Values() == old(pref.Values()).(selectedTranslationLang := ResolvedLangCode(old(pref.selectedTranslationLang), codes))
      ensures var plan := Plan(LanguageList(codes, names, ResolvedLangCode(old(pref.selectedTranslationLang), codes)),
                               old(pref.selectedOCRLang), sourceLangCode, knownTags);
        r == TranslateResult(plan, outcome)
        && CacheState() == (if plan.Run? then UseClient(old(CacheState()), plan.source, plan.target) else old(CacheState()))
    {
      var ocrLang := pref.selectedOCRLang;
      // isLangSupport() lists the languages, then translate lists them again.
      var supported := SupportedLanguages(pref);
      ResolvedLangCodeIdempotent(old(pref.selectedTranslationLang), codes);
      var langs := SupportedLanguages(pref);
      var plan := Plan(langs, ocrLang, sourceLangCode, knownTags);
      if plan.Run? {
        var client := GetClient(plan.source, plan.target);
      }
      r := TranslateResult(plan, outcome);
    }

    /**
     * `checkEnvironment`: the candidates are read after `supportedLanguages`
     * resolved the stored target, so they follow the resolved target.
     */
    method CheckEnvironment(pref: AppPref, downloadedModels: Result<seq<string>, Failure>)
      returns (ready: bool, dialog: ResourceDialog)
      requires Valid()
      modifies pref
      ensures var target := ResolvedLangCode(old(pref.selectedTranslationLang), codes);
        pref.Values() == old(pref.Values()).(selectedTranslationLang := target)
        && (ready, dialog) == ResourceCheck(
             Candidates(LanguageList(codes, names, target), old(pref.selectedOCRLang), target), downloadedModels)
    {
      var langs := SupportedLanguages(pref);
      var candidates := Candidates(langs, pref.selectedOCRLang, pref.selectedTranslationLang);
      var check := ResourceCheck(candidates, downloadedModels);
      ready, dialog := check.0, check.1;
    }
  }
}
