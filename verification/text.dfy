/** Tokenising review text the way `re.findall(r'\b[a-zA-Z]{3,}\b', text.lower())`
    does on a Python `str`. */
module Text {
  import opened Wrappers

  predicate IsAsciiLetter(c: char) {
    'a' <= c <= 'z' || 'A' <= c <= 'Z'
  }

  predicate IsAsciiDigit(c: char) {
    '0' <= c <= '9'
  }

  predicate IsAscii(c: char) {
    c as int < 128
  }

  /** `\w` of Python's `re` on a `str` pattern: ASCII letters and digits, the
      underscore, and every non-ASCII character the Unicode database calls
      alphanumeric.  That last table is not reproduced here: `unicodeWord`
      answers it, and is consulted only for non-ASCII characters. */
  predicate IsWordChar(unicodeWord: char -> bool, c: char) {
    IsAsciiLetter(c) || IsAsciiDigit(c) || c == '_' || (!IsAscii(c) && unicodeWord(c))
  }

  /** `str.lower()` on ASCII; other characters are left as they are. */
  function LowerChar(c: char): char {
    if 'A' <= c <= 'Z' then (c as int + 32) as char else c
  }

  function Lower(s: string): (r: string)
    ensures |r| == |s|
    ensures forall i :: 0 <= i < |s| ==> r[i] == LowerChar(s[i])
  {
    seq(|s|, i requires 0 <= i < |s| => LowerChar(s[i]))
  }

  /** Lowering never changes whether a character is a word character or a letter. */
  lemma LowerKeepsClasses(u: char -> bool, c: char)
    ensures IsWordChar(u, LowerChar(c)) == IsWordChar(u, c)
    ensures IsAsciiLetter(LowerChar(c)) == IsAsciiLetter(c)
    ensures IsAsciiLetter(LowerChar(c)) ==> 'a' <= LowerChar(c) <= 'z'
  {
  }

  predicate AllLetters(s: string) {
    forall k :: 0 <= k < |s| ==> IsAsciiLetter(s[k])
  }

  /** `\b` at position `k`: exactly one of the characters either side is a word character. */
  predicate Boundary(u: char -> bool, s: string, k: nat)
    requires k <= |s|
  {
    (0 < k && IsWordChar(u, s[k - 1])) != (k < |s| && IsWordChar(u, s[k]))
  }

  // ---------------------------------------------------------------------------
  // The regular expression, as Python's matcher runs it
  // ---------------------------------------------------------------------------

  /** End of the run of ASCII letters starting at `p` (greedy `[a-zA-Z]*`). */
  function LetterRunEnd(s: string, p: nat): (r: nat)
    requires p <= |s|
    ensures p <= r <= |s|
    ensures forall k :: p <= k < r ==> IsAsciiLetter(s[k])
    ensures r == |s| || !IsAsciiLetter(s[r])
    decreases |s| - p
  {
    if p < |s| && IsAsciiLetter(s[p]) then LetterRunEnd(s, p + 1) else p
  }

  /** Greedy `[a-zA-Z]{3,}\b` after the letters `s[p..q]` were taken: give
      back one letter at a time until `\b` holds or fewer than three remain. */
  function Backtrack(u: char -> bool, s: string, p: nat, q: nat): (r: Option<nat>)
    requires p <= q <= |s|
    ensures r.Some? ==> p + 3 <= r.value <= q && Boundary(u, s, r.value)
    decreases q
  {
    if q < p + 3 then None
    else if Boundary(u, s, q) then Some(q)
    else Backtrack(u, s, p, q - 1)
  }

  /** One attempt of the pattern at position `p`: the end of the match, if any. */
  function MatchAt(u: char -> bool, s: string, p: nat): (r: Option<nat>)
    requires p <= |s|
    ensures r.Some? ==> p + 3 <= r.value <= |s|
  {
    if !Boundary(u, s, p) then None else Backtrack(u, s, p, LetterRunEnd(s, p))
  }

  /** `re.findall` from position `p`: try the pattern at each position, and
      after a match resume where it ended. */
  function FindAll(u: char -> bool, s: string, p: nat): seq<string>
    requires p <= |s|
    decreases |s| - p
  {
    if p == |s| then []
    else match MatchAt(u, s, p)
      case Some(q) => [s[p..q]] + FindAll(u, s, q)
      case None => FindAll(u, s, p + 1)
  }

  // ---------------------------------------------------------------------------
  // The same tokens, read as maximal runs of word characters
  // ---------------------------------------------------------------------------

  /** End of the run of word characters starting at `i`. */
  function WordRunEnd(u: char -> bool, s: string, i: nat): (r: nat)
    requires i <= |s|
    ensures i <= r <= |s|
    ensures forall k :: i <= k < r ==> IsWordChar(u, s[k])
    ensures r == |s| || !IsWordChar(u, s[r])
    decreases |s| - i
  {
    if i < |s| && IsWordChar(u, s[i]) then WordRunEnd(u, s, i + 1) else i
  }

  /** Scan `s` from `i` run by run, keeping each run of word characters that
      is made of at least three ASCII letters. */
  function Scan(u: char -> bool, s: string, i: nat): seq<string>
    requires i <= |s|
    decreases |s| - i
  {
    if i == |s| then []
    else if !IsWordChar(u, s[i]) then Scan(u, s, i + 1)
    else
      var j := WordRunEnd(u, s, i);
      (if j - i >= 3 && AllLetters(s[i..j]) then [s[i..j]] else []) + Scan(u, s, j)
  }

  /** The tokens of one review text. */
  /** Every string of `ts` is at least three ASCII letters long. */
  predicate LetterRuns(ts: seq<string>) {
    forall t :: t in ts ==> |t| >= 3 && AllLetters(t)
  }

  function Tokens(u: char -> bool, text: string): (r: seq<string>)
    ensures LetterRuns(r)
  {
    ScanShape(u, Lower(text), 0);
    Scan(u, Lower(text), 0)
  }

  /** Every run the scan keeps is at least three ASCII letters long. */
  lemma {:induction false} ScanShape(u: char -> bool, s: string, i: nat)
    requires i <= |s|
    ensures forall t :: t in Scan(u, s, i) ==> |t| >= 3 && AllLetters(t)
    decreases |s| - i
  {
    if i < |s| {
      if !IsWordChar(u, s[i]) {
        ScanShape(u, s, i + 1);
      } else {
        ScanShape(u, s, WordRunEnd(u, s, i));
      }
    }
  }

  /** `s[p..q]` is a token: at least three ASCII letters, with neither
      neighbour a word character. */
  predicate TokenSpan(u: char -> bool, s: string, p: nat, q: nat) {
    && p + 3 <= q <= |s|
    && (p == 0 || !IsWordChar(u, s[p - 1]))
    && (q == |s| || !IsWordChar(u, s[q]))
    && forall k :: p <= k < q ==> IsAsciiLetter(s[k])
  }

  /** Position `i` starts a fresh scan: it does not sit inside a run. */
  predicate AtRunEdge(u: char -> bool, s: string, i: nat)
    requires i <= |s|
  {
    i == 0 || !IsWordChar(u, s[i - 1])
  }

  // ---------------------------------------------------------------------------
  // The scanner computes exactly what the matcher finds
  // ---------------------------------------------------------------------------

  lemma {:induction false} BacktrackFails(u: char -> bool, s: string, p: nat, q: nat)
    requires p <= q <= |s|
    requires forall k :: p < k <= q ==> !Boundary(u, s, k)
    ensures Backtrack(u, s, p, q) == None
    decreases q
  {
    if q >= p + 3 {
      BacktrackFails(u, s, p, q - 1);
    }
  }

  /** At the first character of a run of word characters, the pattern matches
      exactly when the whole run is three or more ASCII letters, and then
      the match is the whole run. */
  lemma MatchAtRunStart(u: char -> bool, s: string, p: nat)
    requires p < |s| && AtRunEdge(u, s, p) && IsWordChar(u, s[p])
    ensures var j := WordRunEnd(u, s, p);
            MatchAt(u, s, p) == if j - p >= 3 && AllLetters(s[p..j]) then Some(j) else None
  {
    var j := WordRunEnd(u, s, p);
    var l := LetterRunEnd(s, p);
    assert Boundary(u, s, p);
    if l < j {
      assert !IsAsciiLetter(s[p..j][l - p]);
      forall k | p < k <= l
        ensures !Boundary(u, s, k)
      {
        assert IsWordChar(u, s[k - 1]) && IsWordChar(u, s[k]);
      }
      BacktrackFails(u, s, p, l);
    } else {
      assert l == j;
      assert AllLetters(s[p..j]);
      if j >= p + 3 {
        assert Boundary(u, s, j);
      }
    }
  }

  /** Inside a run of word characters the matcher advances one position at a
      time without matching, up to the end of the run. */
  lemma {:induction false} FindAllSkipsRun(u: char -> bool, s: string, k: nat, j: nat)
    requires 0 < k <= j <= |s|
    requires forall m :: k - 1 <= m < j ==> IsWordChar(u, s[m])
    ensures FindAll(u, s, k) == FindAll(u, s, j)
    decreases j - k
  {
    if k < j {
      assert !Boundary(u, s, k);
      FindAllSkipsRun(u, s, k + 1, j);
    }
  }

  /** A position holding a non-word character never starts a match. */
  lemma FindAllSkipsSeparator(u: char -> bool, s: string, p: nat)
    requires p < |s| && !IsWordChar(u, s[p])
    ensures FindAll(u, s, p) == FindAll(u, s, p + 1)
  {
    assert LetterRunEnd(s, p) == p;
  }

  /** From the start of a run of word characters, both readings emit the same
      thing for the run and continue from its end. */
  lemma RunStep(u: char -> bool, s: string, i: nat)
    requires i < |s| && AtRunEdge(u, s, i) && IsWordChar(u, s[i])
    ensures var j := WordRunEnd(u, s, i);
            FindAll(u, s, i) ==
              (if j - i >= 3 && AllLetters(s[i..j]) then [s[i..j]] else []) + FindAll(u, s, j)
  {
    var j := WordRunEnd(u, s, i);
    MatchAtRunStart(u, s, i);
    if j - i >= 3 && AllLetters(s[i..j]) {
      assert MatchAt(u, s, i) == Some(j);
      assert FindAll(u, s, i) == [s[i..j]] + FindAll(u, s, j);
    } else {
      assert MatchAt(u, s, i) == None;
      assert FindAll(u, s, i) == FindAll(u, s, i + 1);
      if i + 1 < j {
        FindAllSkipsRun(u, s, i + 1, j);
      }
      assert FindAll(u, s, i + 1) == FindAll(u, s, j);
      var e: seq<string> := [];
      assert e + FindAll(u, s, j) == FindAll(u, s, j);
    }
  }

  lemma {:induction false} ScanIsFindAll(u: char -> bool, s: string, i: nat)
    requires i <= |s| && AtRunEdge(u, s, i)
    ensures Scan(u, s, i) == FindAll(u, s, i)
    decreases |s| - i
  {
    if i == |s| {
    } else if !IsWordChar(u, s[i]) {
      FindAllSkipsSeparator(u, s, i);
      ScanIsFindAll(u, s, i + 1);
    } else {
      var j := WordRunEnd(u, s, i);
      RunStep(u, s, i);
      if j < |s| {
        FindAllSkipsSeparator(u, s, j);
        ScanIsFindAll(u, s, j + 1);
      }
    }
  }

  /** `Tokens` is `re.findall` of the token pattern over the lowered text. */
  lemma TokensAreFindAll(u: char -> bool, text: string)
    ensures Tokens(u, text) == FindAll(u, Lower(text), 0)
  {
    ScanIsFindAll(u, Lower(text), 0);
  }

  // ---------------------------------------------------------------------------
  // What a token is
  // ---------------------------------------------------------------------------

  lemma {:induction false} ScanSound(u: char -> bool, s: string, i: nat)
    requires i <= |s| && AtRunEdge(u, s, i)
    ensures forall t :: t in Scan(u, s, i) ==>
              exists p: nat, q: nat :: i <= p && TokenSpan(u, s, p, q) && t == s[p..q]
    decreases |s| - i
  {
    if i == |s| {
    } else if !IsWordChar(u, s[i]) {
      ScanSound(u, s, i + 1);
    } else {
      var j := WordRunEnd(u, s, i);
      var head := if j - i >= 3 && AllLetters(s[i..j]) then [s[i..j]] else [];
      assert Scan(u, s, i) == head + Scan(u, s, j);
      if j < |s| {
        assert Scan(u, s, j) == Scan(u, s, j + 1);
        ScanSound(u, s, j + 1);
      }
      if j - i >= 3 && AllLetters(s[i..j]) {
        forall k | i <= k < j
          ensures IsAsciiLetter(s[k])
        {
          assert s[k] == s[i..j][k - i];
        }
        assert TokenSpan(u, s, i, j);
      }
      forall t | t in Scan(u, s, i)
        ensures exists p: nat, q: nat :: i <= p && TokenSpan(u, s, p, q) && t == s[p..q]
      {
        if t in head {
          assert TokenSpan(u, s, i, j) && t == s[i..j];
        } else {
          assert t in Scan(u, s, j);
        }
      }
    }
  }

  lemma {:induction false} ScanComplete(u: char -> bool, s: string, i: nat, p: nat, q: nat)
    requires i <= p && TokenSpan(u, s, p, q) && AtRunEdge(u, s, i)
    ensures s[p..q] in Scan(u, s, i)
    decreases |s| - i
  {
    if !IsWordChar(u, s[i]) {
      ScanComplete(u, s, i + 1, p, q);
    } else {
      var j := WordRunEnd(u, s, i);
      if p == i {
        assert q == j;
        assert AllLetters(s[i..j]);
      } else {
        assert p > j;
        ScanComplete(u, s, j + 1, p, q);
      }
    }
  }

  /** A string is a token of `text` exactly when it is a run of at least three
      ASCII letters in the lowered text with no word character either side.
      So tokens are lower-case, and letters touching a digit, an underscore or
      a non-ASCII letter yield nothing. */
  lemma TokenCharacterisation(u: char -> bool, text: string, t: string)
    ensures t in Tokens(u, text) <==>
              exists p: nat, q: nat :: TokenSpan(u, Lower(text), p, q) && t == Lower(text)[p..q]
  {
    var s := Lower(text);
    ScanSound(u, s, 0);
    if exists p: nat, q: nat :: TokenSpan(u, s, p, q) && t == s[p..q] {
      var p: nat, q: nat :| TokenSpan(u, s, p, q) && t == s[p..q];
      ScanComplete(u, s, 0, p, q);
    }
  }

  /** Every token is at least three lower-case ASCII letters. */
  lemma TokenShape(u: char -> bool, text: string, t: string)
    requires t in Tokens(u, text)
    ensures |t| >= 3
    ensures forall k :: 0 <= k < |t| ==> 'a' <= t[k] <= 'z'
  {
    TokenCharacterisation(u, text, t);
    var s := Lower(text);
    var p: nat, q: nat :| TokenSpan(u, s, p, q) && t == s[p..q];
    forall k | 0 <= k < |t|
      ensures 'a' <= t[k] <= 'z'
    {
      assert t[k] == s[p + k] == LowerChar(text[p + k]);
      LowerKeepsClasses(u, text[p + k]);
    }
  }

  /** Letters touching a digit give no token, nor do letters touching a
      non-ASCII letter that Python counts as a word character. */
  lemma TokenExamples(u: char -> bool)
    requires u('é')
    ensures Tokens(u, "abc123") == []
    ensures Tokens(u, "Café") == []
  {
    var a := "abc123";
    assert Lower(a) == a;
    assert WordRunEnd(u, a, 3) == 6 by {
      assert WordRunEnd(u, a, 5) == 6;
      assert WordRunEnd(u, a, 4) == 6;
    }
    assert WordRunEnd(u, a, 0) == 6 by {
      assert WordRunEnd(u, a, 2) == 6;
      assert WordRunEnd(u, a, 1) == 6;
    }
    assert !AllLetters(a[0..6]) by { assert !IsAsciiLetter(a[3]); }
    var c := "café";
    assert Lower("Café") == c;
    assert WordRunEnd(u, c, 0) == 4 by {
      assert WordRunEnd(u, c, 3) == 4;
      assert WordRunEnd(u, c, 2) == 4;
      assert WordRunEnd(u, c, 1) == 4;
    }
    assert !AllLetters(c[0..4]) by { assert !IsAsciiLetter(c[3]); }
  }

  /** Runs shorter than three letters are dropped and the rest are lowered:
      "Nice UI!" gives the single token "nice". */
  lemma TokenExampleKept(u: char -> bool)
    ensures Tokens(u, "Nice UI!") == ["nice"]
  {
    var s := "nice ui!";
    assert Lower("Nice UI!") == s;
    assert WordRunEnd(u, s, 0) == 4 by {
      assert WordRunEnd(u, s, 3) == 4;
      assert WordRunEnd(u, s, 2) == 4;
      assert WordRunEnd(u, s, 1) == 4;
    }
    assert WordRunEnd(u, s, 5) == 7 by {
      assert WordRunEnd(u, s, 6) == 7;
    }
    assert AllLetters(s[0..4]);
    assert s[0..4] == "nice";
    assert Scan(u, s, 8) == [];
    assert Scan(u, s, 7) == [];
    assert Scan(u, s, 5) == [];
    assert Scan(u, s, 4) == [];
  }
}
