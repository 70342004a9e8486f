/**
 * repo/GeneralRepository.kt: the "show once" checks for the readme and the
 * version history, the version-history records, and the remembered
 * selection area and main-bar position. The checks read and then write the
 * `AppPref` version fields; the app resources (the version codes and the
 * version messages) become parameters.
 */
module GeneralRepository {
  import opened Wrappers
  import opened Graphics
  import opened Prefs

  /** `FORMAT_VERSION_MESSAGE_KEY` is "version_%s"; this is the text before the placeholder. */
  const VERSION_MESSAGE_KEY_PREFIX: string := "version_"
  /** `ReadmeView.VERSION`, the version of the readme the app ships. */
  const README_VERSION: string := "2.2.0"

  /** The outcome of a "show once" check: whether it was already shown, and the stored version afterwards. */
  datatype ShownCheck = ShownCheck(alreadyShown: bool, stored: Option<string>)

  /** The check of `isReadmeAlreadyShown` against the stored version `last`. */
  function ReadmeCheck(last: Option<string>): (c: ShownCheck)
    ensures c.alreadyShown <==> last == Some(README_VERSION)
    ensures c.stored == Some(README_VERSION)
  {
    if last != Some(README_VERSION) then ShownCheck(false, Some(README_VERSION)) else ShownCheck(true, last)
  }

  /** Once checked, the readme counts as shown on every later check. */
  lemma ReadmeShownOnce(last: Option<string>)
    ensures ReadmeCheck(ReadmeCheck(last).stored).alreadyShown
    ensures ReadmeCheck(ReadmeCheck(last).stored) == ReadmeCheck(last).(alreadyShown := true)
  {
  }

  /**
   * The check of `isVersionHistoryAlreadyShown`: the newest version is the
   * first of `versionCodes`; without one there is nothing to show.
   */
  function VersionHistoryCheck(versionCodes: seq<string>, last: Option<string>): (c: ShownCheck)
    ensures versionCodes == [] ==> c == ShownCheck(true, last)
    ensures versionCodes != [] ==>
      (c.alreadyShown <==> last == Some(versionCodes[0])) && c.stored == Some(versionCodes[0])
  {
    if versionCodes != [] && Some(versionCodes[0]) != last then ShownCheck(false, Some(versionCodes[0]))
    else ShownCheck(true, last)
  }

  /**
   * The history is shown once per newest version: after a check, a later one
   * reports "not shown" exactly when the newest version code has changed.
   */
  lemma VersionHistoryShownOncePerVersion(codes1: seq<string>, codes2: seq<string>, last: Option<string>)
    requires codes1 != []
    ensures !VersionHistoryCheck(codes2, VersionHistoryCheck(codes1, last).stored).alreadyShown
      <==> codes2 != [] && codes2[0] != codes1[0]
    ensures VersionHistoryCheck(codes1, VersionHistoryCheck(codes1, last).stored).alreadyShown
  {
  }

  /**
   * `isReadmeAlreadyShown` on the stored preferences: the readme version is
   * stored whenever it was not already the stored one.
   */
  method IsReadmeAlreadyShown(pref: AppPref) returns (shown: bool)
    modifies pref
    ensures shown == ReadmeCheck(old(pref.lastReadmeShownVersion)).alreadyShown
    ensures pref.Values() == old(pref.Values()).(lastReadmeShownVersion := ReadmeCheck(old(pref.lastReadmeShownVersion)).stored)
    ensures shown ==> unchanged(pref)
  {
    var lastShownName := pref.lastReadmeShownVersion;
    if Some(README_VERSION) != lastShownName {
      pref.lastReadmeShownVersion := Some(README_VERSION);
      shown := false;
    } else {
      shown := true;
    }
  }

  /** `isVersionHistoryAlreadyShown`, given the app's version codes, newest first. */
  method IsVersionHistoryAlreadyShown(pref: AppPref, versionCodes: seq<string>) returns (shown: bool)
    modifies pref
    ensures shown == VersionHistoryCheck(versionCodes, old(pref.lastVersionHistoryShownVersion)).alreadyShown
    ensures pref.Values() == old(pref.Values()).(lastVersionHistoryShownVersion :=
      VersionHistoryCheck(versionCodes, old(pref.lastVersionHistoryShownVersion)).stored)
    ensures shown ==> unchanged(pref)
  {
    var lastVersionName: Option<string> := if versionCodes == [] then None else Some(versionCodes[0]);
    var lastShownName := pref.lastVersionHistoryShownVersion;
    if lastVersionName.Some? && lastVersionName != lastShownName {
      pref.lastVersionHistoryShownVersion := lastVersionName;
      shown := false;
    } else {
      shown := true;
    }
  }

  /** `versionCode.replace(".", "_")`. */
  function ReplaceDots(s: string): (r: string)
    ensures |r| == |s|
    ensures forall i :: 0 <= i < |s| ==> r[i] == (if s[i] == '.' then '_' else s[i])
  {
    if s == [] then [] else [if s[0] == '.' then '_' else s[0]] + ReplaceDots(s[1..])
  }

  /** The name of the string resource holding a version's message. */
  function VersionMessageKey(versionCode: string): (key: string)
    ensures |key| == |VERSION_MESSAGE_KEY_PREFIX| + |versionCode|
    ensures key[..|VERSION_MESSAGE_KEY_PREFIX|] == VERSION_MESSAGE_KEY_PREFIX
    ensures '.' !in key
  {
    VERSION_MESSAGE_KEY_PREFIX + ReplaceDots(versionCode)
  }

  /** A dotted version names its resource with underscores. */
  lemma VersionMessageKeyExample()
    ensures VersionMessageKey("2.2.0") == "version_2_2_0"
  {
    assert ReplaceDots("2.2.0") == "2_2_0";
  }

  datatype Record = Record(version: string, desc: string)

  /**
   * `getVersionHistory`: one record per version code whose message resource
   * exists in `messages` (resource name to text), in the order of the codes;
   * a code without a resource is dropped.
   */
  function VersionHistory(versionCodes: seq<string>, messages: map<string, string>): (r: seq<Record>)
    ensures |r| <= |versionCodes|
    ensures forall rec :: rec in r ==>
      rec.version in versionCodes && VersionMessageKey(rec.version) in messages
      && rec.desc == messages[VersionMessageKey(rec.version)]
    ensures forall i :: 0 <= i < |versionCodes| && VersionMessageKey(versionCodes[i]) in messages ==>
      Record(versionCodes[i], messages[VersionMessageKey(versionCodes[i])]) in r
  {
    if versionCodes == [] then []
    else
      var key := VersionMessageKey(versionCodes[0]);
      var rest := VersionHistory(versionCodes[1..], messages);
      assert forall i :: 1 <= i < |versionCodes| ==> versionCodes[i] == versionCodes[1..][i - 1];
      if key in messages then [Record(versionCodes[0], messages[key])] + rest else rest
  }

  /**
   * The history is built code by code: a single code gives its record or
   * nothing, and the history of a concatenation is the concatenation of the
   * histories, so records keep the order of their codes.
   */
  lemma {:induction false} VersionHistoryAppend(a: seq<string>, b: seq<string>, messages: map<string, string>)
    ensures VersionHistory(a + b, messages) == VersionHistory(a, messages) + VersionHistory(b, messages)
  {
    if a == [] {
      assert a + b == b;
    } else {
      assert (a + b)[0] == a[0] && (a + b)[1..] == a[1..] + b;
      VersionHistoryAppend(a[1..], b, messages);
      var key := VersionMessageKey(a[0]);
      var head := if key in messages then [Record(a[0], messages[key])] else [];
      var p, q := VersionHistory(a[1..], messages), VersionHistory(b, messages);
      assert VersionHistory(a + b, messages) == head + (p + q);
      assert VersionHistory(a, messages) == head + p;
      AppendAssoc(head, p, q);
    }
  }

  /** A single code gives its record when its message exists, and nothing otherwise. */
  lemma VersionHistorySingle(c: string, messages: map<string, string>)
    ensures VersionHistory([c], messages) ==
      if VersionMessageKey(c) in messages then [Record(c, messages[VersionMessageKey(c)])] else []
  {
    assert [c][1..] == [];
  }

  function Versions(records: seq<Record>): seq<string>
  {
    if records == [] then [] else [records[0].version] + Versions(records[1..])
  }

  /** When every message exists, the history lists exactly the version codes, in order. */
  lemma {:induction false} VersionHistoryComplete(versionCodes: seq<string>, messages: map<string, string>)
    requires forall c :: c in versionCodes ==> VersionMessageKey(c) in messages
    ensures Versions(VersionHistory(versionCodes, messages)) == versionCodes
  {
    if versionCodes != [] {
      VersionHistoryComplete(versionCodes[1..], messages);
    }
  }

  /** `getLastRememberedSelectionArea` */
  method GetLastRememberedSelectionArea(pref: AppPref) returns (area: Option<Rect>)
    ensures area == pref.lastSelectionArea
  {
    area := pref.lastSelectionArea;
  }

  /** `setLastRememberedSelectionArea`: the next read gives back `rect`. */
  method SetLastRememberedSelectionArea(pref: AppPref, rect: Rect)
    modifies pref
    ensures pref.Values() == old(pref.Values()).(lastSelectionArea := Some(rect))
  {
    pref.lastSelectionArea := Some(rect);
  }

  /** `saveLastMainBarPosition` */
  method SaveLastMainBarPosition(pref: AppPref, x: int, y: int)
    modifies pref
    ensures pref.Values() == old(pref.Values()).(lastMainBarPosition := Point(x, y))
  {
    pref.lastMainBarPosition := Point(x, y);
  }
}
