/** Language tags: `String.firstPart()` of utils/Utils.kt, the primary subtag. */
module LangTag {
  /** The text before the first '-' (Kotlin `split("-")[0]`). */
  function FirstPart(s: string): (r: string)
    ensures r <= s
    ensures '-' !in r
    ensures |r| < |s| ==> s[|r|] == '-'
  {
    if s == [] || s[0] == '-' then "" else [s[0]] + FirstPart(s[1..])
  }

  /** A tag without '-', the empty tag included, is its own primary subtag. */
  lemma {:induction false} FirstPartOfPlain(s: string)
    requires '-' !in s
    ensures FirstPart(s) == s
  {
    if s != [] {
      assert s[0] != '-';
      assert '-' !in s[1..];
      FirstPartOfPlain(s[1..]);
    }
  }

  /** Taking the primary subtag twice is the same as taking it once. */
  lemma FirstPartIdempotent(s: string)
    ensures FirstPart(FirstPart(s)) == FirstPart(s)
  {
    FirstPartOfPlain(FirstPart(s));
  }

  /** The tag splits as primary subtag, then nothing or a '-' and the rest. */
  lemma FirstPartSplits(s: string)
    ensures s == FirstPart(s) + s[|FirstPart(s)|..]
    ensures |FirstPart(s)| < |s| ==> s[|FirstPart(s)|..][0] == '-'
  {
  }

  /** Two tags agree on their primary subtag when they share the text up to a '-'. */
  lemma {:induction false} FirstPartOfExtension(p: string, rest: string)
    requires '-' !in p
    ensures FirstPart(p + "-" + rest) == p
  {
    if p == [] {
      assert (p + "-" + rest)[0] == '-';
    } else {
      assert (p + "-" + rest)[1..] == p[1..] + "-" + rest;
      assert '-' !in p[1..];
      FirstPartOfExtension(p[1..], rest);
    }
  }

  lemma FirstPartExamples()
    ensures FirstPart("zh-Hant") == "zh"
    ensures FirstPart("en-US") == "en"
    ensures FirstPart("en") == "en"
    ensures FirstPart("") == ""
  {
    FirstPartOfExtension("zh", "Hant");
    FirstPartOfExtension("en", "US");
    FirstPartOfPlain("en");
  }
}
