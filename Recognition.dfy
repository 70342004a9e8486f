/**
 * The values shared by the text recognizers: the OCR engines, a language of an
 * engine's catalog, a recognition result, and the catalog ordering (Kotlin
 * `sortedBy { it.displayName }`, a stable sort by String.compareTo) and
 * de-duplication (`distinctBy { it.displayName }`).
 */
module Recognition {
  import opened Wrappers
  import opened Graphics

  datatype OcrProviderType = GoogleMLKitOcr | Tesseract

  /** One language of an OCR engine's catalog. */
  datatype RecognitionLanguage = RecognitionLanguage(
    code: string,
    displayName: string,
    selected: bool,
    downloaded: bool,
    recognizer: OcrProviderType,
    innerCode: string,
    unrecommended: bool)

  datatype RecognitionResult = RecognitionResult(langCode: string, result: string, boundingBoxes: seq<Rect>)

  /** Lexicographic order of strings by character code, shorter first on a common prefix. */
  predicate StrLe(a: string, b: string)
  {
    if a == [] then true
    else if b == [] then false
    else if a[0] != b[0] then a[0] < b[0]
    else StrLe(a[1..], b[1..])
  }

  lemma {:induction false} StrLeTotal(a: string, b: string)
    ensures StrLe(a, b) || StrLe(b, a)
  {
    if a != [] && b != [] && a[0] == b[0] {
      StrLeTotal(a[1..], b[1..]);
    }
  }

  lemma {:induction false} StrLeTransitive(a: string, b: string, c: string)
    requires StrLe(a, b) && StrLe(b, c)
    ensures StrLe(a, c)
  {
    if a != [] && b != [] && c != [] && a[0] == b[0] && b[0] == c[0] {
      StrLeTransitive(a[1..], b[1..], c[1..]);
    }
  }

  /** Each display name is at most the next one's. */
  predicate SortedByName(s: seq<RecognitionLanguage>)
  {
    forall i :: 0 < i < |s| ==> StrLe(s[i - 1].displayName, s[i].displayName)
  }

  /** No two entries share a display name. */
  predicate NamesDistinct(s: seq<RecognitionLanguage>)
  {
    forall i, j :: 0 <= i < j < |s| ==> s[i].displayName != s[j].displayName
  }

  /** Inserts `x` before the first entry whose name is not smaller, so earlier entries stay first. */
  function InsertByName(x: RecognitionLanguage, s: seq<RecognitionLanguage>): (r: seq<RecognitionLanguage>)
    ensures multiset(r) == multiset(s) + multiset{x}
    ensures |r| > 0 && (r[0] == x || (s != [] && r[0] == s[0]))
    ensures SortedByName(s) ==> SortedByName(r)
  {
    if s == [] then [x]
    else if StrLe(x.displayName, s[0].displayName) then [x] + s
    else
      StrLeTotal(x.displayName, s[0].displayName);
      assert s == [s[0]] + s[1..];
      [s[0]] + InsertByName(x, s[1..])
  }

  /** The catalog sort: a sorted permutation of its input. */
  function SortByName(s: seq<RecognitionLanguage>): (r: seq<RecognitionLanguage>)
    ensures multiset(r) == multiset(s)
    ensures |r| == |s|
    ensures SortedByName(r)
  {
    if s == [] then []
    else
      assert s == [s[0]] + s[1..];
      InsertByName(s[0], SortByName(s[1..]))
  }

  /** A sorted catalog is ordered between any two positions, not only neighbours. */
  lemma {:induction false} SortedPairwise(s: seq<RecognitionLanguage>, i: int, j: int)
    requires SortedByName(s) && 0 <= i <= j < |s|
    ensures StrLe(s[i].displayName, s[j].displayName)
    decreases j - i
  {
    if i == j {
      StrLeTotal(s[i].displayName, s[i].displayName);
    } else {
      SortedPairwise(s, i, j - 1);
      StrLeTransitive(s[i].displayName, s[j - 1].displayName, s[j].displayName);
    }
  }

  lemma {:induction false} InsertKeepsNamesDistinct(x: RecognitionLanguage, s: seq<RecognitionLanguage>)
    requires NamesDistinct(s)
    requires forall e :: e in s ==> e.displayName != x.displayName
    ensures NamesDistinct(InsertByName(x, s))
  {
    if s != [] && !StrLe(x.displayName, s[0].displayName) {
      assert NamesDistinct(s[1..]);
      InsertKeepsNamesDistinct(x, s[1..]);
      var t := InsertByName(x, s[1..]);
      forall e | e in t ensures e.displayName != s[0].displayName {
        assert e in multiset(t);
        assert e == x || e in multiset(s[1..]);
      }
    }
  }

  /** Sorting neither merges nor duplicates display names. */
  lemma {:induction false} SortKeepsNamesDistinct(s: seq<RecognitionLanguage>)
    requires NamesDistinct(s)
    ensures NamesDistinct(SortByName(s))
  {
    if s != [] {
      assert NamesDistinct(s[1..]);
      SortKeepsNamesDistinct(s[1..]);
      forall e | e in SortByName(s[1..]) ensures e.displayName != s[0].displayName {
        assert e in multiset(SortByName(s[1..]));
        assert e in s[1..];
      }
      InsertKeepsNamesDistinct(s[0], SortByName(s[1..]));
    }
  }

  /** The display names occurring in a catalog. */
  function Names(s: seq<RecognitionLanguage>): set<string>
  {
    set e | e in s :: e.displayName
  }

  /** `distinctBy { it.displayName }`: the first entry of each name not yet in `seen`, in order. */
  function DistinctByName(s: seq<RecognitionLanguage>, seen: set<string>): (r: seq<RecognitionLanguage>)
    ensures NamesDistinct(r)
    ensures forall e :: e in r ==> e in s && e.displayName !in seen
  {
    if s == [] then []
    else if s[0].displayName in seen then DistinctByName(s[1..], seen)
    else [s[0]] + DistinctByName(s[1..], seen + {s[0].displayName})
  }

  /** No name is lost: the result names every name of `s` outside `seen`, and no other. */
  lemma {:induction false} DistinctByNameNames(s: seq<RecognitionLanguage>, seen: set<string>)
    ensures Names(DistinctByName(s, seen)) == Names(s) - seen
  {
    if s != [] {
      var x := s[0];
      assert forall e :: e in s <==> e == x || e in s[1..];
      assert Names(s) == {x.displayName} + Names(s[1..]);
      if x.displayName in seen {
        DistinctByNameNames(s[1..], seen);
      } else {
        var rest := DistinctByName(s[1..], seen + {x.displayName});
        DistinctByNameNames(s[1..], seen + {x.displayName});
        assert forall e :: e in [x] + rest <==> e == x || e in rest;
        assert Names([x] + rest) == {x.displayName} + Names(rest);
      }
    }
  }

  /**
   * `distinctBy` scans left to right: a single entry stays exactly when its
   * name is not yet seen, and a concatenation keeps the first part's entries
   * followed by the second part's entries whose names the first part lacks.
   */
  lemma {:induction false} DistinctByNameAppend(a: seq<RecognitionLanguage>, b: seq<RecognitionLanguage>, seen: set<string>)
    ensures DistinctByName(a + b, seen) == DistinctByName(a, seen) + DistinctByName(b, seen + Names(a))
  {
    if a == [] {
      assert a + b == b;
      assert seen + Names(a) == seen;
    } else {
      var x := a[0];
      assert (a + b)[0] == x && (a + b)[1..] == a[1..] + b;
      SeenAfterHead(a, seen);
      var seen' := if x.displayName in seen then seen else seen + {x.displayName};
      var head := if x.displayName in seen then [] else [x];
      DistinctByNameAppend(a[1..], b, seen');
      var p, q := DistinctByName(a[1..], seen'), DistinctByName(b, seen' + Names(a[1..]));
      assert DistinctByName(a + b, seen) == head + (p + q);
      assert DistinctByName(a, seen) == head + p;
      AppendAssoc(head, p, q);
    }
  }

  /** A single entry stays exactly when its name is not yet seen. */
  lemma DistinctByNameSingle(x: RecognitionLanguage, seen: set<string>)
    ensures DistinctByName([x], seen) == (if x.displayName in seen then [] else [x])
  {
    assert [x][1..] == [];
  }

  /** Scanning the first entry and then the rest sees the names of the whole list. */
  lemma SeenAfterHead(a: seq<RecognitionLanguage>, seen: set<string>)
    requires a != []
    ensures (if a[0].displayName in seen then seen else seen + {a[0].displayName}) + Names(a[1..]) == seen + Names(a)
  {
    assert forall e :: e in a <==> e == a[0] || e in a[1..];
    assert Names(a) == {a[0].displayName} + Names(a[1..]);
  }

  /** The entry kept for a name is its first occurrence: an entry whose name is neither seen nor earlier is kept. */
  lemma DistinctByNameKeepsFirst(s: seq<RecognitionLanguage>, seen: set<string>, i: int)
    requires 0 <= i < |s| && s[i].displayName !in seen
    requires forall j :: 0 <= j < i ==> s[j].displayName != s[i].displayName
    ensures s[i] in DistinctByName(s, seen)
  {
    assert s == s[..i] + ([s[i]] + s[i + 1..]);
    DistinctByNameAppend(s[..i], [s[i]] + s[i + 1..], seen);
    DistinctByNameAppend([s[i]], s[i + 1..], seen + Names(s[..i]));
    DistinctByNameSingle(s[i], seen + Names(s[..i]));
    assert s[i].displayName !in Names(s[..i]);
  }
}
