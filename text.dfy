/** ASCII models of the Python `str` operations the router relies on:
    `strip`, `lower`, `upper`, `replace(c, "")`, `startswith`, `in`,
    `splitlines()[0]`, `split(c)[0]`, `split()` and `" ".join`.
    Characters outside ASCII are treated as ordinary characters: they are
    never whitespace, never line breaks and have no case. */
module Text {

  /** Python's `str.isspace` on ASCII: tab, line feed, vertical tab, form
      feed, carriage return (9..13), the four separators 0x1C..0x1F and
      the space. */
  predicate IsSpace(c: char) {
    (9 <= c as int <= 13) || (28 <= c as int <= 32)
  }

  /** The ASCII line boundaries of Python's `str.splitlines`: line feed,
      vertical tab, form feed, carriage return and 0x1C..0x1E.  A "\r\n"
      pair is one boundary there, but only the text before the first
      boundary is ever used, so the pair needs no special case. */
  predicate IsLineBreak(c: char) {
    (10 <= c as int <= 13) || (28 <= c as int <= 30)
  }

  /** Text with no line boundary in it. */
  predicate OneLine(s: string) {
    forall c :: c in s ==> !IsLineBreak(c)
  }

  lemma OneLineConcat(a: string, b: string)
    requires OneLine(a) && OneLine(b)
    ensures OneLine(a + b)
  {
  }

  predicate AllSpace(s: string) {
    forall i :: 0 <= i < |s| ==> IsSpace(s[i])
  }

  /** A string that `strip` leaves alone. */
  predicate IsStripped(s: string) {
    s == [] || (!IsSpace(s[0]) && !IsSpace(s[|s| - 1]))
  }

  predicate IsUpperChar(c: char) { 'A' <= c <= 'Z' }
  predicate IsLowerChar(c: char) { 'a' <= c <= 'z' }

  function LowerChar(c: char): char {
    if IsUpperChar(c) then (c as int + 32) as char else c
  }

  function UpperChar(c: char): char {
    if IsLowerChar(c) then (c as int - 32) as char else c
  }

  /** `s.lower()`. */
  function Lower(s: string): string {
    seq(|s|, i requires 0 <= i < |s| => LowerChar(s[i]))
  }

  /** `s.upper()`. */
  function Upper(s: string): string {
    seq(|s|, i requires 0 <= i < |s| => UpperChar(s[i]))
  }

  lemma LowerSlice(s: string, i: nat, j: nat)
    requires i <= j <= |s|
    ensures Lower(s)[i..j] == Lower(s[i..j])
  {
  }

  lemma LowerConcat(a: string, b: string)
    ensures Lower(a + b) == Lower(a) + Lower(b)
  {
    assert forall i :: 0 <= i < |a + b| ==> Lower(a + b)[i] == (Lower(a) + Lower(b))[i];
  }

  /** A prefix test on one piece survives lowering the whole text. */
  lemma LowerStartsWithConcat(a: string, b: string, p: string)
    requires StartsWith(Lower(a), p)
    ensures StartsWith(Lower(a + b), p)
  {
    LowerConcat(a, b);
    assert (Lower(a) + Lower(b))[..|p|] == Lower(a)[..|p|];
  }

  /** An occurrence in the lowered first piece survives appending. */
  lemma LowerOccursConcat(a: string, b: string, t: string, i: int)
    requires OccursAt(Lower(a), t, i)
    ensures OccursAt(Lower(a + b), t, i)
  {
    LowerConcat(a, b);
    assert (Lower(a) + Lower(b))[i..i + |t|] == Lower(a)[i..i + |t|];
  }

  /** Lowering twice is lowering once. */
  lemma LowerIdempotent(s: string)
    ensures Lower(Lower(s)) == Lower(s)
  {
    assert forall i :: 0 <= i < |s| ==> Lower(Lower(s))[i] == Lower(s)[i];
  }

  /** How many whitespace characters `s` starts with. */
  function LeadingSpace(s: string): (n: nat)
    ensures n <= |s|
  {
    if s != [] && IsSpace(s[0]) then 1 + LeadingSpace(s[1..]) else 0
  }

  /** How long `s` is without the whitespace it ends with. */
  function KeptLength(s: string): (n: nat)
    ensures n <= |s|
  {
    if s != [] && IsSpace(s[|s| - 1]) then KeptLength(s[..|s| - 1]) else |s|
  }

  /** `LeadingSpace` counts whitespace, and stops at the first other
      character. */
  lemma {:induction false} LeadingSpaceCounts(s: string)
    ensures var n := LeadingSpace(s);
            (forall k :: 0 <= k < n ==> IsSpace(s[k])) && (n == |s| || !IsSpace(s[n]))
  {
    if s != [] && IsSpace(s[0]) {
      LeadingSpaceCounts(s[1..]);
      var n := LeadingSpace(s);
      forall k | 1 <= k < n ensures IsSpace(s[k]) {
        assert s[k] == s[1..][k - 1];
      }
      if n < |s| {
        assert s[n] == s[1..][n - 1];
      }
    }
  }

  /** `KeptLength` stops right after the last character that is not
      whitespace. */
  lemma {:induction false} KeptLengthCounts(s: string)
    ensures var n := KeptLength(s);
            (forall k :: n <= k < |s| ==> IsSpace(s[k])) && (n == 0 || !IsSpace(s[n - 1]))
  {
    if s != [] && IsSpace(s[|s| - 1]) {
      var p := s[..|s| - 1];
      KeptLengthCounts(p);
      var n := KeptLength(s);
      forall k | n <= k < |s| - 1 ensures IsSpace(s[k]) {
        assert s[k] == p[k];
      }
      if n > 0 {
        assert s[n - 1] == p[n - 1];
      }
    }
  }

  /** The leading whitespace of `s` removed (`s.lstrip()`). */
  function TrimLeft(s: string): string {
    s[LeadingSpace(s)..]
  }

  /** The trailing whitespace of `s` removed (`s.rstrip()`). */
  function TrimRight(s: string): string {
    s[..KeptLength(s)]
  }

  /** `s.strip()`: no whitespace is left at either end, every character
      comes from `s`, and the result is empty exactly when `s` is all
      whitespace (see also `StripSlice` and `StripEnds`). */
  function Strip(s: string): (r: string)
    ensures IsStripped(r)
    ensures forall c :: c in r ==> c in s
    ensures IsStripped(s) ==> r == s
    ensures r == [] <==> AllSpace(s)
  {
    StripStripped(s);
    StripChars(s);
    StrippedStrip(s);
    StripEmpty(s);
    TrimRight(TrimLeft(s))
  }

  /** What `Strip` keeps is one contiguous stretch of `s`, starting where
      the leading whitespace ends. */
  lemma StripSlice(s: string)
    ensures var r := Strip(s); var i := LeadingSpace(s);
            i + |r| <= |s| && forall k :: 0 <= k < |r| ==> r[k] == s[i + k]
  {
  }

  /** What `Strip` removes on either side of that stretch is whitespace. */
  lemma StripEnds(s: string)
    ensures var r := Strip(s); var i := LeadingSpace(s);
            && i + |r| <= |s|
            && (forall k :: 0 <= k < i ==> IsSpace(s[k]))
            && (forall k :: i + |r| <= k < |s| ==> IsSpace(s[k]))
  {
    var i := LeadingSpace(s);
    var t := TrimLeft(s);
    LeadingSpaceCounts(s);
    KeptLengthCounts(t);
    forall k | i + KeptLength(t) <= k < |s| ensures IsSpace(s[k]) {
      assert s[k] == t[k - i];
    }
  }

  lemma StripStripped(s: string)
    ensures IsStripped(TrimRight(TrimLeft(s)))
  {
    var t := TrimLeft(s);
    var r := TrimRight(t);
    LeadingSpaceCounts(s);
    KeptLengthCounts(t);
    if r != [] {
      assert r[0] == t[0] == s[LeadingSpace(s)];
      assert r[|r| - 1] == t[KeptLength(t) - 1];
    }
  }

  lemma StripChars(s: string)
    ensures forall c :: c in TrimRight(TrimLeft(s)) ==> c in s
  {
    var i := LeadingSpace(s);
    var r := TrimRight(TrimLeft(s));
    forall c | c in r ensures c in s {
      var k :| 0 <= k < |r| && r[k] == c;
      assert s[i + k] == c;
    }
  }

  lemma StrippedStrip(s: string)
    ensures IsStripped(s) ==> TrimRight(TrimLeft(s)) == s
  {
    if IsStripped(s) {
      assert LeadingSpace(s) == 0;
      assert TrimLeft(s) == s;
      assert KeptLength(s) == |s|;
    }
  }

  lemma StripEmpty(s: string)
    ensures TrimRight(TrimLeft(s)) == [] <==> AllSpace(s)
  {
    var t := TrimLeft(s);
    LeadingSpaceCounts(s);
    KeptLengthCounts(t);
    TrimLeftStart(s);
  }

  lemma TrimLeftStart(s: string)
    ensures TrimLeft(s) == [] || !IsSpace(TrimLeft(s)[0])
  {
    LeadingSpaceCounts(s);
    if TrimLeft(s) != [] {
      assert TrimLeft(s)[0] == s[LeadingSpace(s)];
    }
  }

  /** `s.replace(c, "")`: every occurrence of `c` deleted, wherever it is. */
  function RemoveAll(s: string, c: char): (r: string)
    ensures forall x :: x in r <==> x in s && x != c
  {
    if s == [] then []
    else if s[0] == c then RemoveAll(s[1..], c)
    else [s[0]] + RemoveAll(s[1..], c)
  }

  /** Deleting from a concatenation deletes from each part: together with
      the one-character case below this fixes `replace(c, "")` exactly,
      order and count of the kept characters included. */
  lemma {:induction false} RemoveAllConcat(a: string, b: string, c: char)
    ensures RemoveAll(a + b, c) == RemoveAll(a, c) + RemoveAll(b, c)
  {
    if a == [] {
      assert a + b == b;
    } else {
      assert (a + b)[1..] == a[1..] + b;
      RemoveAllConcat(a[1..], b, c);
    }
  }

  lemma RemoveAllChar(x: char, c: char)
    ensures RemoveAll([x], c) == if x == c then [] else [x]
  {
  }

  /** `s.startswith(p)`. */
  predicate StartsWith(s: string, p: string) {
    |p| <= |s| && s[..|p|] == p
  }

  /** `t in s` for strings: `t` occurs in `s` as a contiguous piece. */
  predicate Contains(s: string, t: string) {
    exists i :: 0 <= i <= |s| - |t| && OccursAt(s, t, i)
  }

  predicate OccursAt(s: string, t: string, i: int) {
    0 <= i && i + |t| <= |s| && s[i..i + |t|] == t
  }

  /** `s.splitlines()[0]` for a non-empty `s`: the text before the first
      line boundary (all of `s` when there is none). */
  function FirstLine(s: string): (r: string)
    ensures |r| <= |s| && r == s[..|r|]
    ensures OneLine(r)
    ensures |r| < |s| ==> IsLineBreak(s[|r|])
  {
    if s == [] || IsLineBreak(s[0]) then [] else [s[0]] + FirstLine(s[1..])
  }

  /** `s.split(c)[0]`: the text before the first `c` (all of `s` when
      there is none). */
  function Before(s: string, c: char): (r: string)
    ensures |r| <= |s| && r == s[..|r|]
    ensures c !in r
    ensures |r| < |s| ==> s[|r|] == c
  {
    if s == [] || s[0] == c then [] else [s[0]] + Before(s[1..], c)
  }

  /** One element of the list that `s.split()` returns. */
  predicate IsWord(w: string) {
    w != [] && forall i :: 0 <= i < |w| ==> !IsSpace(w[i])
  }

  predicate CharsIn(w: string, s: string) {
    forall c :: c in w ==> c in s
  }

  /** Length of the run of non-whitespace characters that starts `s`. */
  function WordLength(s: string): (n: nat)
    ensures n <= |s|
    ensures forall i :: 0 <= i < n ==> !IsSpace(s[i])
    ensures n < |s| ==> IsSpace(s[n])
  {
    if s == [] || IsSpace(s[0]) then 0 else 1 + WordLength(s[1..])
  }

  /** `s.split()`: the maximal runs of non-whitespace characters, in order. */
  function Words(s: string): (r: seq<string>)
    ensures forall w :: w in r ==> IsWord(w) && CharsIn(w, s)
    decreases |s|
  {
    if s == [] then []
    else if IsSpace(s[0]) then Words(s[1..])
    else
      var n := WordLength(s);
      assert CharsIn(s[..n], s);
      [s[..n]] + Words(s[n..])
  }

  /** `WordLength` only looks at the run that starts `a`: text appended
      after a whitespace character, or after a run that already ends
      inside `a`, does not change it. */
  lemma {:induction false} WordLengthAppend(a: string, t: string)
    requires WordLength(a) < |a| || t == [] || IsSpace(t[0])
    ensures WordLength(a + t) == WordLength(a)
  {
    if a == [] {
      assert a + t == t;
    } else if !IsSpace(a[0]) {
      assert (a + t)[1..] == a[1..] + t;
      WordLengthAppend(a[1..], t);
    }
  }

  /** A whitespace character splits the text in two: the words of the
      whole are the words before it followed by the words after it.
      With `WordsOfWord` and `Words([]) == []` this determines `split()`
      on every input, whatever the runs of whitespace. */
  lemma {:induction false} WordsSplitAt(a: string, c: char, b: string)
    requires IsSpace(c)
    ensures Words(a + [c] + b) == Words(a) + Words(b)
    decreases |a|
  {
    var s := a + [c] + b;
    if a == [] {
      assert s[1..] == b;
    } else if IsSpace(a[0]) {
      assert s[1..] == a[1..] + [c] + b;
      WordsSplitAt(a[1..], c, b);
    } else {
      assert s == a + ([c] + b);
      WordLengthAppend(a, [c] + b);
      var n := WordLength(a);
      assert s[..n] == a[..n];
      assert s[n..] == a[n..] + [c] + b;
      WordsSplitAt(a[n..], c, b);
    }
  }

  /** A single word splits to itself. */
  lemma WordsOfWord(w: string)
    requires IsWord(w)
    ensures Words(w) == [w]
  {
    WordLengthOfWord(w, []);
    assert w + [] == w;
    assert w[|w|..] == [];
  }

  /** `" ".join(ws)`. */
  function Join(ws: seq<string>): string {
    if ws == [] then []
    else if |ws| == 1 then ws[0]
    else ws[0] + " " + Join(ws[1..])
  }

  /** Every whitespace character of `s` is a single space with a
      non-whitespace character on both sides: no leading, trailing or
      doubled separators. */
  predicate SingleSpaced(s: string) {
    forall i :: 0 <= i < |s| && IsSpace(s[i]) ==>
      s[i] == ' ' && 0 < i < |s| - 1 && !IsSpace(s[i - 1]) && !IsSpace(s[i + 1])
  }

  lemma {:induction false} WordLengthOfWord(w: string, t: string)
    requires IsWord(w)
    requires t == [] || IsSpace(t[0])
    ensures WordLength(w + t) == |w|
  {
    if |w| > 1 {
      assert (w + t)[1..] == w[1..] + t;
      WordLengthOfWord(w[1..], t);
    } else {
      assert (w + t)[1..] == t;
    }
  }

  /** Splitting a join of words gives back the words. */
  lemma {:induction false} WordsOfJoin(ws: seq<string>)
    requires forall w :: w in ws ==> IsWord(w)
    ensures Words(Join(ws)) == ws
  {
    if ws == [] {
    } else if |ws| == 1 {
      var w := ws[0];
      WordLengthOfWord(w, []);
      assert w + [] == w;
      assert w[|w|..] == [];
    } else {
      var w, rest := ws[0], Join(ws[1..]);
      var s := w + " " + rest;
      assert s == w + (" " + rest);
      WordLengthOfWord(w, " " + rest);
      assert s[..|w|] == w;
      assert s[|w|..] == " " + rest;
      assert (" " + rest)[1..] == rest;
      WordsOfJoin(ws[1..]);
      assert ws == [w] + ws[1..];
    }
  }

  /** A join of words is single-spaced, and empty only when there are no
      words. */
  lemma {:induction false} JoinSingleSpaced(ws: seq<string>)
    requires forall w :: w in ws ==> IsWord(w)
    ensures SingleSpaced(Join(ws))
    ensures ws != [] ==> Join(ws) != [] && IsStripped(Join(ws))
  {
    if |ws| == 1 {
      assert ws[0] in ws;
    } else if |ws| > 1 {
      var w, rest := ws[0], Join(ws[1..]);
      assert w in ws && IsWord(w);
      JoinSingleSpaced(ws[1..]);
      var s := w + " " + rest;
      assert rest != [] && !IsSpace(rest[0]) && !IsSpace(rest[|rest| - 1]);
      assert forall i :: 0 <= i < |w| ==> s[i] == w[i];
      assert s[|w|] == ' ';
      assert forall i :: |w| < i < |s| ==> s[i] == rest[i - |w| - 1];
      forall i | 0 <= i < |s| && IsSpace(s[i])
        ensures s[i] == ' ' && 0 < i < |s| - 1 && !IsSpace(s[i - 1]) && !IsSpace(s[i + 1])
      {
        if i == |w| {
          assert s[i - 1] == w[|w| - 1];
          assert s[i + 1] == rest[0];
        } else {
          assert i > |w|;
          var k := i - |w| - 1;
          assert IsSpace(rest[k]);
        }
      }
    }
  }

  /** Whitespace that a string starts with does not change its words. */
  lemma {:induction false} WordsTrimLeft(s: string)
    ensures Words(TrimLeft(s)) == Words(s)
  {
    if s != [] && IsSpace(s[0]) {
      WordsTrimLeft(s[1..]);
      assert TrimLeft(s) == TrimLeft(s[1..]);
    } else {
      assert TrimLeft(s) == s[0..] == s;
    }
  }

  /** One more whitespace character at the end does not change the words. */
  lemma WordsAppendSpace(s: string, c: char)
    requires IsSpace(c)
    ensures Words(s + [c]) == Words(s)
  {
    WordsSplitAt(s, c, []);
    assert s + [c] + [] == s + [c];
  }

  /** Whitespace that a string ends with does not change its words. */
  lemma {:induction false} WordsTrimRight(s: string)
    ensures Words(TrimRight(s)) == Words(s)
    decreases |s|
  {
    if s != [] && IsSpace(s[|s| - 1]) {
      var p := s[..|s| - 1];
      assert s == p + [s[|s| - 1]];
      WordsAppendSpace(p, s[|s| - 1]);
      WordsTrimRight(p);
      assert KeptLength(s) == KeptLength(p);
      assert s[..KeptLength(p)] == p[..KeptLength(p)];
    } else {
      assert TrimRight(s) == s[..|s|] == s;
    }
  }

  /** `s.strip().split() == s.split()`. */
  lemma WordsStrip(s: string)
    ensures Words(Strip(s)) == Words(s)
  {
    WordsTrimLeft(s);
    WordsTrimRight(TrimLeft(s));
  }
}
