/** The keyword heuristic that turns an image request into a search term:
    lower-case, keep only `[a-z0-9 ]`, split into words, drop stopwords,
    and join what is left with single spaces. */
module ImageApi {
  import opened Text

  const Stopwords: set<string> :=
    {"show", "me", "an", "a", "of", "the", "image", "please", "give", "picture", "photo", "send"}

  /** A character that `re.sub(r"[^a-z0-9 ]", "", ...)` keeps. */
  predicate IsCleanChar(c: char) {
    ('a' <= c <= 'z') || ('0' <= c <= '9') || c == ' '
  }

  predicate IsCleanText(s: string) {
    forall c :: c in s ==> IsCleanChar(c)
  }

  /** `re.sub(r"[^a-z0-9 ]", "", s)`: every other character deleted, the
      kept ones in their order. */
  function KeepClean(s: string): (r: string)
    ensures IsCleanText(r)
    ensures forall c :: c in r <==> c in s && IsCleanChar(c)
    ensures IsCleanText(s) ==> r == s
  {
    if s == [] then []
    else if IsCleanChar(s[0]) then [s[0]] + KeepClean(s[1..])
    else KeepClean(s[1..])
  }

  /** `[word for word in ws if word not in stopwords]`. */
  function Keywords(ws: seq<string>): (r: seq<string>)
    ensures forall w :: w in r ==> w in ws && w !in Stopwords
    ensures r == [] <==> forall w :: w in ws ==> w in Stopwords
    ensures (forall w :: w in ws ==> w !in Stopwords) ==> r == ws
  {
    if ws == [] then []
    else if ws[0] in Stopwords then Keywords(ws[1..])
    else [ws[0]] + Keywords(ws[1..])
  }

  /** The filter works character by character: the cleaning of a
      concatenation is the concatenation of the cleanings, and one
      character is kept exactly when it is clean.  Together these fix the
      kept characters' order and count. */
  lemma {:induction false} KeepCleanConcat(a: string, b: string)
    ensures KeepClean(a + b) == KeepClean(a) + KeepClean(b)
  {
    if a == [] {
      assert a + b == b;
    } else {
      assert (a + b)[1..] == a[1..] + b;
      KeepCleanConcat(a[1..], b);
    }
  }

  lemma KeepCleanChar(c: char)
    ensures KeepClean([c]) == if IsCleanChar(c) then [c] else []
  {
  }

  /** The stopword filter works word by word: every word that is not a
      stopword is kept, in its place, and every stopword is dropped. */
  lemma {:induction false} KeywordsConcat(a: seq<string>, b: seq<string>)
    ensures Keywords(a + b) == Keywords(a) + Keywords(b)
  {
    if a == [] {
      assert a + b == b;
    } else {
      assert (a + b)[1..] == a[1..] + b;
      KeywordsConcat(a[1..], b);
    }
  }

  lemma KeywordsOne(w: string)
    ensures Keywords([w]) == if w in Stopwords then [] else [w]
  {
  }

  /** The text the heuristic works on. */
  function Cleaned(text: string): string {
    KeepClean(Lower(text))
  }

  /** `extract_keyword(text)`. */
  function ExtractKeyword(text: string): string {
    var cleaned := Cleaned(text);
    var keywords := Keywords(Words(cleaned));
    if keywords != [] then Join(keywords) else Strip(cleaned)
  }

  /** A join of clean words is clean. */
  lemma {:induction false} JoinClean(ws: seq<string>)
    requires forall w :: w in ws ==> IsCleanText(w)
    ensures IsCleanText(Join(ws))
  {
    if |ws| == 1 {
      assert ws[0] in ws;
    } else if |ws| > 1 {
      assert ws[0] in ws;
      JoinClean(ws[1..]);
    }
  }

  /** Every character of the search term is in `a-z`, `0-9` or the space. */
  lemma ExtractKeywordCharset(text: string)
    ensures IsCleanText(ExtractKeyword(text))
  {
    var cleaned := Cleaned(text);
    var keywords := Keywords(Words(cleaned));
    if keywords != [] {
      forall w | w in keywords ensures IsCleanText(w) {
        assert CharsIn(w, cleaned);
      }
      JoinClean(keywords);
    }
  }

  /** When some word is not a stopword, the term is exactly the
      non-stopwords in their order, single-spaced: splitting it again gives
      those words back, and none of them is a stopword. */
  lemma ExtractKeywordWords(text: string)
    requires Keywords(Words(Cleaned(text))) != []
    ensures var r := ExtractKeyword(text);
            && r == Join(Keywords(Words(Cleaned(text))))
            && Words(r) == Keywords(Words(Cleaned(text)))
            && (forall w :: w in Words(r) ==> w !in Stopwords)
            && SingleSpaced(r) && IsStripped(r) && r != []
  {
    var keywords := Keywords(Words(Cleaned(text)));
    WordsOfJoin(keywords);
    JoinSingleSpaced(keywords);
  }

  /** When every word is a stopword, or there are none, the term is the
      cleaned text with its surrounding spaces stripped. */
  lemma ExtractKeywordFallback(text: string)
    requires forall w :: w in Words(Cleaned(text)) ==> w in Stopwords
    ensures ExtractKeyword(text) == Strip(Cleaned(text))
  {
  }

  /** The example in the docstring of `extract_keyword`. */
  lemma ExtractKeywordExample()
    ensures ExtractKeyword("Show me an image of the sun") == "sun"
  {
    var ws := ["show", "me", "an", "image", "of", "the", "sun"];
    ExampleCleaned();
    ExampleJoin();
    ExampleKeywords();
    ExampleWords();
    ExtractFromJoin("Show me an image of the sun", ws);
  }

  lemma ExampleWords()
    ensures forall w :: w in ["show", "me", "an", "image", "of", "the", "sun"] ==> IsWord(w)
  {
  }

  /** When the cleaned text is a join of words, the term is the join of
      those that are not stopwords (if any). */
  lemma ExtractFromJoin(text: string, ws: seq<string>)
    requires forall w :: w in ws ==> IsWord(w)
    requires Cleaned(text) == Join(ws) && Keywords(ws) != []
    ensures ExtractKeyword(text) == Join(Keywords(ws))
  {
    WordsOfJoin(ws);
  }

  lemma ExampleCleaned()
    ensures Cleaned("Show me an image of the sun") == "show me an image of the sun"
  {
    var a, b := "Show me an ", "image of the sun";
    ExampleSplit();
    CleanedConcat(a, b);
    ExampleCleanedPieces();
  }

  lemma ExampleCleanedPieces()
    ensures Cleaned("Show me an ") == "show me an "
    ensures Cleaned("image of the sun") == "image of the sun"
  {
    ExampleLowerHead();
    assert IsCleanText("show me an ");
    assert IsCleanText("image of the sun");
    CleanTextFixed("image of the sun");
  }

  lemma ExampleLowerHead()
    ensures Lower("Show me an ") == "show me an "
  {
  }

  lemma ExampleSplit()
    ensures "Show me an " + "image of the sun" == "Show me an image of the sun"
    ensures "show me an " + "image of the sun" == "show me an image of the sun"
  {
  }

  /** Lower-casing and filtering work piece by piece. */
  lemma CleanedConcat(a: string, b: string)
    ensures Cleaned(a + b) == Cleaned(a) + Cleaned(b)
  {
    LowerConcat(a, b);
    KeepCleanConcat(Lower(a), Lower(b));
  }

  lemma ExampleKeywords()
    ensures Keywords(["show", "me", "an", "image", "of", "the", "sun"]) == ["sun"]
  {
    assert "sun" !in Stopwords;
    assert ["sun"][1..] == [];
    assert Keywords(["sun"]) == ["sun"];
    SkipStopword("the", ["sun"]);
    SkipStopword("of", ["the", "sun"]);
    SkipStopword("image", ["of", "the", "sun"]);
    SkipStopword("an", ["image", "of", "the", "sun"]);
    SkipStopword("me", ["an", "image", "of", "the", "sun"]);
    SkipStopword("show", ["me", "an", "image", "of", "the", "sun"]);
  }

  lemma SkipStopword(w: string, ws: seq<string>)
    requires w in Stopwords
    ensures Keywords([w] + ws) == Keywords(ws)
  {
    assert ([w] + ws)[1..] == ws;
  }

  lemma ExampleJoin()
    ensures Join(["show", "me", "an", "image", "of", "the", "sun"]) == "show me an image of the sun"
  {
    var ws := ["show", "me", "an", "image", "of", "the", "sun"];
    assert ws[1..] == ["me", "an", "image", "of", "the", "sun"];
    assert ws[2..] == ["an", "image", "of", "the", "sun"];
    assert ws[3..] == ["image", "of", "the", "sun"];
    assert ws[4..] == ["of", "the", "sun"];
    assert ws[5..] == ["the", "sun"];
    assert ws[6..] == ["sun"];
  }

  /** Two texts that differ only in the case of ASCII letters. */
  predicate SameIgnoringCase(s: string, t: string) {
    |s| == |t| && forall i :: 0 <= i < |s| ==> LowerChar(s[i]) == LowerChar(t[i])
  }

  /** The term does not depend on the case of the input's letters. */
  lemma ExtractKeywordIgnoresCase(s: string, t: string)
    requires SameIgnoringCase(s, t)
    ensures ExtractKeyword(s) == ExtractKeyword(t)
  {
    assert Lower(s) == Lower(t);
  }

  /** Clean text is its own lower-case and its own cleaning. */
  lemma CleanTextFixed(s: string)
    requires IsCleanText(s)
    ensures Cleaned(s) == s
  {
    assert forall i :: 0 <= i < |s| ==> s[i] in s;
    assert Lower(s) == s;
  }

  /** Extracting again from a search term gives the same term. */
  lemma ExtractKeywordIdempotent(text: string)
    ensures ExtractKeyword(ExtractKeyword(text)) == ExtractKeyword(text)
  {
    var cleaned := Cleaned(text);
    var keywords := Keywords(Words(cleaned));
    var r := ExtractKeyword(text);
    ExtractKeywordCharset(text);
    CleanTextFixed(r);
    if keywords != [] {
      ExtractKeywordWords(text);
      assert Keywords(Words(r)) == keywords;
    } else {
      WordsStrip(cleaned);
      assert Words(r) == Words(cleaned);
    }
  }
}
