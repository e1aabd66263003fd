/**
 * The keyword extractor of the knowledge base: lower-case the text, keep the
 * CJK Unified Ideographs (U+4E00 to U+9FFF) in order, and emit every window
 * of one, two and three of those characters. Stop words are removed from the
 * one-character windows only.
 */
module Keywords {

  /** A character of the CJK Unified Ideographs block. */
  predicate IsIdeograph(c: char)
  {
    '\U{4E00}' <= c <= '\U{9FFF}'
  }

  /**
   * The stop-word set of the extractor. Only its one-character members can
   * ever be removed, because it is consulted for single characters alone.
   */
  const StopWords: set<string> := {
    "的", "是", "在", "有", "和", "了", "与", "个", "对", "为",
    "这", "那", "什么", "如何", "怎么", "哪些", "哪个", "吗", "呢", "地方"
  }

  /** Lower-casing of one character; the model maps ASCII capitals only. */
  function LowerChar(c: char): (r: char)
    ensures 'A' <= c <= 'Z' ==> 'a' <= r <= 'z'
    ensures !('A' <= c <= 'Z') ==> r == c
  {
    if 'A' <= c <= 'Z' then (c as int - 'A' as int + 'a' as int) as char else c
  }

  /** `str.lower()`, character by character. */
  function Lower(s: string): (r: string)
    ensures |r| == |s|
  {
    if s == [] then [] else [LowerChar(s[0])] + Lower(s[1..])
  }

  /** Lower-casing works character by character, in place. */
  lemma {:induction false} LowerEach(s: string)
    ensures forall i :: 0 <= i < |s| ==> Lower(s)[i] == LowerChar(s[i])
  {
    if s != [] {
      LowerEach(s[1..]);
    }
  }

  /** The ideographs of `text`, in order (the `chars` list of the extractor). */
  function Ideographs(text: string): (chars: string)
    ensures |chars| <= |text|
  {
    if text == [] then []
    else (if IsIdeograph(text[0]) then [text[0]] else []) + Ideographs(text[1..])
  }

  /** Every character kept is an ideograph. */
  lemma {:induction false} OnlyIdeographs(text: string)
    ensures forall c :: c in Ideographs(text) ==> IsIdeograph(c)
  {
    if text != [] {
      OnlyIdeographs(text[1..]);
    }
  }

  /** Lower-casing never touches an ideograph and never makes one. */
  lemma {:induction false} LowerKeepsIdeographs(text: string)
    ensures Ideographs(Lower(text)) == Ideographs(text)
  {
    if text != [] {
      LowerKeepsIdeographs(text[1..]);
    }
  }

  /** The window of `n` characters of `chars` that starts at `i`. */
  function Window(chars: string, i: int, n: nat): (w: string)
    requires 0 <= i && i + n <= |chars|
    ensures |w| == n
  {
    chars[i..i + n]
  }

  /** All windows of `n` characters of `chars` (the `n`-grams), front first. */
  function Grams(chars: string, n: nat): (g: set<string>)
    requires 1 <= n
    decreases |chars|
  {
    if |chars| < n then {} else {Window(chars, 0, n)} + Grams(chars[1..], n)
  }

  /**
   * The keyword set of `text`: the 1-grams that are not stop words, and all
   * 2-grams and 3-grams, over the ideographs of the lower-cased text.
   */
  function ExtractKeywords(text: string): set<string>
  {
    var chars := Ideographs(Lower(text));
    (Grams(chars, 1) - StopWords) + Grams(chars, 2) + Grams(chars, 3)
  }

  /** `w` occurs in `chars` as a contiguous window. */
  ghost predicate IsWindow(chars: string, w: string)
  {
    exists i :: 0 <= i <= |chars| - |w| && Window(chars, i, |w|) == w
  }

  /** A window of the tail is the window one place further along. */
  lemma ShiftWindow(chars: string, i: int, n: nat)
    requires 0 <= i && i + 1 + n <= |chars|
    ensures Window(chars[1..], i, n) == Window(chars, i + 1, n)
  {
  }

  /** The `n`-grams of `chars` are exactly its windows of length `n`. */
  lemma {:induction false} InGrams(chars: string, n: nat, w: string)
    requires 1 <= n
    ensures w in Grams(chars, n) <==> |w| == n && IsWindow(chars, w)
    decreases |chars|
  {
    if |chars| >= n {
      var rest := chars[1..];
      InGrams(rest, n, w);
      if |w| == n && IsWindow(chars, w) && w != Window(chars, 0, n) {
        var i :| 0 <= i <= |chars| - n && Window(chars, i, n) == w;
        ShiftWindow(chars, i - 1, n);
      }
      if |w| == n && IsWindow(rest, w) {
        var i :| 0 <= i <= |rest| - n && Window(rest, i, n) == w;
        ShiftWindow(chars, i, n);
      }
    }
  }

  /**
   * A string is a keyword of `text` exactly when it is a window of one, two or
   * three ideographs of `text`, and, if it has one character, not a stop word.
   */
  lemma KeywordsExactly(text: string, w: string)
    ensures w in ExtractKeywords(text) <==>
      1 <= |w| <= 3 && IsWindow(Ideographs(text), w) && (|w| == 1 ==> w !in StopWords)
  {
    LowerKeepsIdeographs(text);
    var chars := Ideographs(text);
    InGrams(chars, 1, w);
    InGrams(chars, 2, w);
    InGrams(chars, 3, w);
  }

  /** Every keyword is one to three ideographs long. */
  lemma KeywordShape(text: string, w: string)
    requires w in ExtractKeywords(text)
    ensures 1 <= |w| <= 3
    ensures forall c :: c in w ==> IsIdeograph(c)
    ensures |w| == 1 ==> w !in StopWords
  {
    KeywordsExactly(text, w);
    var chars := Ideographs(text);
    var i :| 0 <= i <= |chars| - |w| && Window(chars, i, |w|) == w;
    OnlyIdeographs(text);
    forall c | c in w ensures IsIdeograph(c) {
      var k :| 0 <= k < |w| && w[k] == c;
      assert chars[i + k] == c;
    }
  }

  /** Filtering text without ideographs leaves nothing. */
  lemma {:induction false} NoIdeographsFiltered(text: string)
    requires forall c :: c in text ==> !IsIdeograph(c)
    ensures Ideographs(text) == []
  {
    if text != [] {
      assert text[0] in text;
      NoIdeographsFiltered(text[1..]);
    }
  }

  /** Text without ideographs has no keywords. */
  lemma NoIdeographsNoKeywords(text: string)
    requires forall c :: c in text ==> !IsIdeograph(c)
    ensures ExtractKeywords(text) == {}
  {
    LowerKeepsIdeographs(text);
    NoIdeographsFiltered(text);
  }

  /**
   * The keyword set is empty exactly when the text has no ideograph, or one
   * ideograph that is a stop word.
   */
  lemma EmptyKeywordsExactly(text: string)
    ensures var chars := Ideographs(text);
      ExtractKeywords(text) == {} <==> |chars| == 0 || (|chars| == 1 && chars in StopWords)
  {
    LowerKeepsIdeographs(text);
    var chars := Ideographs(text);
    if |chars| >= 2 {
      assert Window(chars, 0, 2) in Grams(chars, 2);
    } else {
      assert Grams(chars, 2) == {} && Grams(chars, 3) == {};
      if |chars| == 1 {
        assert Window(chars, 0, 1) == chars;
        assert Grams(chars, 1) == {chars};
      } else {
        assert Grams(chars, 1) == {};
      }
    }
  }

  /**
   * The two-character stop words are never removed: whenever one of them
   * occurs among the ideographs, it is a keyword.
   */
  lemma TwoCharacterStopWordsKept(text: string, i: nat)
    requires i + 2 <= |Ideographs(text)|
    requires Window(Ideographs(text), i, 2) in StopWords
    ensures Window(Ideographs(text), i, 2) in ExtractKeywords(text)
  {
    KeywordsExactly(text, Window(Ideographs(text), i, 2));
  }
}
