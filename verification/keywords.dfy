/** `extract_keywords` (backend/services/sentiment.py): the frequent words of a
    batch of texts, each with the average compound score of the texts it
    occurs in. */
module Keywords {
  import opened Numeric
  import opened Text
  import opened Ranking
  import opened Sentiment

  /** The words never reported, verbatim ("very" is listed twice in the source;
      a set keeps it once). */
  const StopWords: set<string> := {
    "the", "a", "an", "and", "or", "but", "in", "on", "at", "to", "for",
    "of", "with", "by", "from", "as", "is", "was", "are", "were", "been",
    "be", "have", "has", "had", "do", "does", "did", "will", "would",
    "could", "should", "may", "might", "must", "shall", "can", "need",
    "this", "that", "these", "those", "i", "you", "he", "she", "it",
    "we", "they", "what", "which", "who", "whom", "whose", "where",
    "when", "why", "how", "all", "each", "every", "both", "few", "more",
    "most", "other", "some", "such", "no", "nor", "not", "only", "own",
    "same", "so", "than", "too", "very", "just", "also", "now", "here",
    "there", "then", "once", "if", "my", "your", "its", "our", "their",
    "app", "use", "using", "used", "really", "very", "much", "get", "got",
    "one", "two", "first", "new", "even", "still", "well", "way", "many"
  }

  /** One counted occurrence of a word, with the compound score of its text. */
  datatype Occurrence = Occurrence(word: string, compound: real)

  /** The tokens of one text that are not stop-words, each tagged with `compound`. */
  function Kept(tokens: seq<string>, compound: real): seq<Occurrence> {
    if |tokens| == 0 then []
    else
      (if tokens[0] in StopWords then [] else [Occurrence(tokens[0], compound)])
      + Kept(tokens[1..], compound)
  }

  /** The occurrences one text contributes: none for an empty text. */
  function TextOccurrences(e: Engine, text: string): seq<Occurrence> {
    if text == "" then [] else Kept(Tokens(e.unicodeWord, text), Compound(e, text))
  }

  /** Every occurrence the extraction loop visits, in visiting order. */
  function Occurrences(e: Engine, texts: seq<string>): seq<Occurrence> {
    if |texts| == 0 then [] else TextOccurrences(e, texts[0]) + Occurrences(e, texts[1..])
  }

  // ---------------------------------------------------------------------------
  // Reference quantities over the occurrence stream
  // ---------------------------------------------------------------------------

  /** How many occurrences are of `w`. */
  function CountOf(occ: seq<Occurrence>, w: string): nat {
    if |occ| == 0 then 0
    else CountOf(occ[..|occ| - 1], w) + (if occ[|occ| - 1].word == w then 1 else 0)
  }

  /** The compound scores attached to the occurrences of `w`, in order. */
  function ScoresOf(occ: seq<Occurrence>, w: string): seq<real> {
    if |occ| == 0 then []
    else ScoresOf(occ[..|occ| - 1], w) + (if occ[|occ| - 1].word == w then [occ[|occ| - 1].compound] else [])
  }

  /** Position of the first occurrence of `w`, or `|occ|` if there is none. */
  function FirstIndex(occ: seq<Occurrence>, w: string): (i: nat)
    ensures i <= |occ|
    ensures i < |occ| ==> occ[i].word == w
    ensures forall j :: 0 <= j < i ==> occ[j].word != w
  {
    if |occ| == 0 then 0 else if occ[0].word == w then 0 else 1 + FirstIndex(occ[1..], w)
  }

  // ---------------------------------------------------------------------------
  // The loop: a Counter and a dict of score lists
  // ---------------------------------------------------------------------------

  /** One entry of the `Counter`. */
  datatype WordCount = WordCount(word: string, count: nat)

  function CountKey(wc: WordCount): int { wc.count }

  /** The sum of the Counter's counts. */
  function CountTotal(counts: seq<WordCount>): int {
    if |counts| == 0 then 0 else counts[0].count + CountTotal(counts[1..])
  }

  /** `word_counts[w] += 1`: a new word joins at the end, as in a dict. */
  function Bump(counts: seq<WordCount>, w: string): (r: seq<WordCount>)
    ensures |r| <= |counts| + 1
    ensures CountTotal(r) == CountTotal(counts) + 1
  {
    if |counts| == 0 then [WordCount(w, 1)]
    else if counts[0].word == w then [WordCount(w, counts[0].count + 1)] + counts[1..]
    else [counts[0]] + Bump(counts[1..], w)
  }

  /** `word_sentiments.setdefault(w, []).append(c)`. */
  function AppendScore(m: map<string, seq<real>>, w: string, c: real): map<string, seq<real>> {
    if w in m then m[w := m[w] + [c]] else m[w := [c]]
  }

  /** The loop's two accumulators. */
  datatype Tally = Tally(counts: seq<WordCount>, sentiments: map<string, seq<real>>)

  /** The accumulators after visiting `occ` in order. */
  function TallyOf(occ: seq<Occurrence>): (r: Tally)
    ensures |r.counts| <= |occ|
    ensures CountTotal(r.counts) == |occ|
  {
    if |occ| == 0 then Tally([], map[])
    else
      var t := TallyOf(occ[..|occ| - 1]);
      var o := occ[|occ| - 1];
      Tally(Bump(t.counts, o.word), AppendScore(t.sentiments, o.word, o.compound))
  }

  /** Orders Counter entries by the first time their word was seen. */
  function SeenRank(occ: seq<Occurrence>): WordCount -> int {
    (wc: WordCount) => FirstIndex(occ, wc.word)
  }

  /** What the accumulators hold after the loop: one Counter entry per distinct
      word, in first-seen order, carrying its number of occurrences, and under
      each such word the list of its occurrences' scores. */
  ghost predicate TallyMatches(occ: seq<Occurrence>, t: Tally) {
    && Increasing(t.counts, SeenRank(occ))
    && EntriesMatch(occ, t)
    && KeysListed(t)
    && (forall w :: CountOf(occ, w) > 0 ==> w in t.sentiments)
  }

  ghost predicate EntriesMatch(occ: seq<Occurrence>, t: Tally) {
    forall i :: 0 <= i < |t.counts| ==>
      && t.counts[i].count == CountOf(occ, t.counts[i].word) >= 1
      && t.counts[i].word in t.sentiments
      && t.sentiments[t.counts[i].word] == ScoresOf(occ, t.counts[i].word)
  }

  ghost predicate KeysListed(t: Tally) {
    forall w :: w in t.sentiments ==> exists i :: 0 <= i < |t.counts| && t.counts[i].word == w
  }

  lemma {:induction false} FirstIndexExtend(occ: seq<Occurrence>, o: Occurrence, w: string)
    ensures FirstIndex(occ + [o], w) ==
              if FirstIndex(occ, w) < |occ| then FirstIndex(occ, w)
              else if o.word == w then |occ| else |occ| + 1
  {
    if |occ| > 0 {
      assert (occ + [o])[1..] == occ[1..] + [o];
      FirstIndexExtend(occ[1..], o, w);
    }
  }

  lemma {:induction false} CountPositiveIffSeen(occ: seq<Occurrence>, w: string)
    ensures CountOf(occ, w) > 0 <==> FirstIndex(occ, w) < |occ|
  {
    if |occ| > 0 {
      var p := occ[..|occ| - 1];
      CountPositiveIffSeen(p, w);
      assert p + [occ[|occ| - 1]] == occ;
      FirstIndexExtend(p, occ[|occ| - 1], w);
    }
  }

  lemma {:induction false} BumpExisting(counts: seq<WordCount>, w: string, k: nat)
    requires k < |counts| && counts[k].word == w
    requires forall i :: 0 <= i < k ==> counts[i].word != w
    ensures |Bump(counts, w)| == |counts|
    ensures forall i :: 0 <= i < |counts| ==>
              Bump(counts, w)[i] == if i == k then WordCount(w, counts[k].count + 1) else counts[i]
  {
    if k > 0 {
      BumpExisting(counts[1..], w, k - 1);
    }
  }

  lemma {:induction false} BumpNew(counts: seq<WordCount>, w: string)
    requires forall i :: 0 <= i < |counts| ==> counts[i].word != w
    ensures Bump(counts, w) == counts + [WordCount(w, 1)]
  {
    if |counts| > 0 {
      BumpNew(counts[1..], w);
      assert [counts[0]] + (counts[1..] + [WordCount(w, 1)]) == counts + [WordCount(w, 1)];
    }
  }

  /** What one more occurrence does to the reference quantities. */
  lemma ExtendAt(p: seq<Occurrence>, o: Occurrence, w: string)
    ensures CountOf(p + [o], w) == CountOf(p, w) + (if o.word == w then 1 else 0)
    ensures ScoresOf(p + [o], w) == ScoresOf(p, w) + (if o.word == w then [o.compound] else [])
    ensures FirstIndex(p + [o], w) ==
              if FirstIndex(p, w) < |p| then FirstIndex(p, w) else if o.word == w then |p| else |p| + 1
    ensures CountOf(p, w) > 0 <==> FirstIndex(p, w) < |p|
  {
    assert (p + [o])[..|p + [o]| - 1] == p;
    FirstIndexExtend(p, o, w);
    CountPositiveIffSeen(p, w);
  }

  /** The Counter positions of words already seen keep their first-seen rank. */
  lemma RankKept(p: seq<Occurrence>, o: Occurrence, t: Tally, i: nat)
    requires EntriesMatch(p, t) && i < |t.counts|
    ensures SeenRank(p + [o])(t.counts[i]) == SeenRank(p)(t.counts[i]) < |p|
  {
    ExtendAt(p, o, t.counts[i].word);
  }

  /** The sentiments map after one step, at a word's key. */
  lemma AppendAt(p: seq<Occurrence>, o: Occurrence, t: Tally, w: string)
    requires w in t.sentiments ==> t.sentiments[w] == ScoresOf(p, w)
    requires w !in t.sentiments ==> CountOf(p, w) == 0
    ensures var m := AppendScore(t.sentiments, o.word, o.compound);
            (w in m <==> w in t.sentiments || w == o.word)
            && (w in m ==> m[w] == ScoresOf(p + [o], w))
  {
    ExtendAt(p, o, w);
    if w !in t.sentiments {
      ScoresMatchCount(p, w);
    }
  }

  lemma StepEntries(p: seq<Occurrence>, o: Occurrence, t: Tally, counts': seq<WordCount>)
    requires TallyMatches(p, t)
    requires |counts'| >= |t.counts|
    requires forall i :: 0 <= i < |t.counts| ==>
               counts'[i] == if t.counts[i].word == o.word then WordCount(o.word, t.counts[i].count + 1)
                             else t.counts[i]
    requires forall i :: |t.counts| <= i < |counts'| ==>
               counts'[i] == WordCount(o.word, 1) && CountOf(p, o.word) == 0
    ensures EntriesMatch(p + [o], Tally(counts', AppendScore(t.sentiments, o.word, o.compound)))
  {
    var t' := Tally(counts', AppendScore(t.sentiments, o.word, o.compound));
    forall i | 0 <= i < |counts'|
      ensures counts'[i].count == CountOf(p + [o], counts'[i].word) >= 1
      ensures counts'[i].word in t'.sentiments
      ensures t'.sentiments[counts'[i].word] == ScoresOf(p + [o], counts'[i].word)
    {
      var w := counts'[i].word;
      ExtendAt(p, o, w);
      if i < |t.counts| {
        assert w == t.counts[i].word;
      }
      AppendAt(p, o, t, w);
    }
  }

  lemma StepRecorded(p: seq<Occurrence>, o: Occurrence, t: Tally)
    requires TallyMatches(p, t)
    ensures forall w :: CountOf(p + [o], w) > 0 ==> w in AppendScore(t.sentiments, o.word, o.compound)
  {
    forall w | CountOf(p + [o], w) > 0
      ensures w in AppendScore(t.sentiments, o.word, o.compound)
    {
      ExtendAt(p, o, w);
    }
  }

  lemma StepSeenOrdered(p: seq<Occurrence>, o: Occurrence, t: Tally, counts': seq<WordCount>)
    requires TallyMatches(p, t)
    requires |counts'| == |t.counts|
    requires forall i :: 0 <= i < |t.counts| ==> counts'[i].word == t.counts[i].word
    ensures Increasing(counts', SeenRank(p + [o]))
  {
    forall i | 0 <= i < |counts'|
      ensures SeenRank(p + [o])(counts'[i]) == SeenRank(p)(t.counts[i])
    {
      RankKept(p, o, t, i);
    }
  }

  /** One step of the loop for a word the Counter already holds. */
  lemma TallyStepSeen(p: seq<Occurrence>, o: Occurrence, t: Tally, k: nat)
    requires TallyMatches(p, t)
    requires k < |t.counts| && t.counts[k].word == o.word
    ensures TallyMatches(p + [o], Tally(Bump(t.counts, o.word), AppendScore(t.sentiments, o.word, o.compound)))
  {
    var counts' := Bump(t.counts, o.word);
    forall i | 0 <= i < |t.counts| && i != k
      ensures t.counts[i].word != o.word
    {
      assert SeenRank(p)(t.counts[i]) != SeenRank(p)(t.counts[k]);
    }
    BumpExisting(t.counts, o.word, k);
    StepSeenOrdered(p, o, t, counts');
    StepEntries(p, o, t, counts');
    StepRecorded(p, o, t);
    StepSeenKeys(t, o, counts', k);
  }

  lemma StepSeenKeys(t: Tally, o: Occurrence, counts': seq<WordCount>, k: nat)
    requires KeysListed(t)
    requires k < |t.counts| && t.counts[k].word == o.word
    requires |counts'| == |t.counts|
    requires forall i :: 0 <= i < |t.counts| ==> counts'[i].word == t.counts[i].word
    ensures KeysListed(Tally(counts', AppendScore(t.sentiments, o.word, o.compound)))
  {
    forall w | w in AppendScore(t.sentiments, o.word, o.compound)
      ensures exists i :: 0 <= i < |counts'| && counts'[i].word == w
    {
      if w != o.word {
        var i :| 0 <= i < |t.counts| && t.counts[i].word == w;
        assert counts'[i].word == w;
      } else {
        assert counts'[k].word == w;
      }
    }
  }

  lemma StepNewOrdered(p: seq<Occurrence>, o: Occurrence, t: Tally)
    requires TallyMatches(p, t)
    requires CountOf(p, o.word) == 0
    ensures Increasing(t.counts + [WordCount(o.word, 1)], SeenRank(p + [o]))
  {
    var occ := p + [o];
    var c' := t.counts + [WordCount(o.word, 1)];
    ExtendAt(p, o, o.word);
    forall i | 0 <= i < |t.counts|
      ensures SeenRank(occ)(c'[i]) == SeenRank(p)(t.counts[i]) < |p|
    {
      RankKept(p, o, t, i);
    }
    assert SeenRank(occ)(c'[|t.counts|]) == |p|;
  }

  lemma StepNewKeys(t: Tally, o: Occurrence)
    requires KeysListed(t)
    ensures KeysListed(Tally(t.counts + [WordCount(o.word, 1)], AppendScore(t.sentiments, o.word, o.compound)))
  {
    var c' := t.counts + [WordCount(o.word, 1)];
    forall w | w in AppendScore(t.sentiments, o.word, o.compound)
      ensures exists i :: 0 <= i < |c'| && c'[i].word == w
    {
      if w != o.word {
        var i :| 0 <= i < |t.counts| && t.counts[i].word == w;
        assert c'[i].word == w;
      } else {
        assert c'[|t.counts|].word == w;
      }
    }
  }

  /** One step of the loop for a word seen for the first time. */
  lemma TallyStepNew(p: seq<Occurrence>, o: Occurrence, t: Tally)
    requires TallyMatches(p, t)
    requires forall i :: 0 <= i < |t.counts| ==> t.counts[i].word != o.word
    ensures TallyMatches(p + [o], Tally(Bump(t.counts, o.word), AppendScore(t.sentiments, o.word, o.compound)))
  {
    BumpNew(t.counts, o.word);
    assert o.word !in t.sentiments;
    assert CountOf(p, o.word) == 0;
    StepNewOrdered(p, o, t);
    StepEntries(p, o, t, t.counts + [WordCount(o.word, 1)]);
    StepRecorded(p, o, t);
    StepNewKeys(t, o);
  }

  /** The Counter and the score lists the loop builds are exactly the
      reference quantities over the occurrence stream. */
  lemma {:induction false} TallyCorrect(occ: seq<Occurrence>)
    ensures TallyMatches(occ, TallyOf(occ))
  {
    if |occ| > 0 {
      var p := occ[..|occ| - 1];
      var o := occ[|occ| - 1];
      assert p + [o] == occ;
      TallyCorrect(p);
      var t := TallyOf(p);
      assert TallyOf(occ) == Tally(Bump(t.counts, o.word), AppendScore(t.sentiments, o.word, o.compound));
      if k :| 0 <= k < |t.counts| && t.counts[k].word == o.word {
        TallyStepSeen(p, o, t, k);
      } else {
        TallyStepNew(p, o, t);
      }
    }
  }

  lemma {:induction false} ScoresMatchCount(occ: seq<Occurrence>, w: string)
    ensures |ScoresOf(occ, w)| == CountOf(occ, w)
  {
    if |occ| > 0 {
      ScoresMatchCount(occ[..|occ| - 1], w);
    }
  }

  // ---------------------------------------------------------------------------
  // From the Counter to the keyword list
  // ---------------------------------------------------------------------------

  /** One reported keyword. */
  datatype Keyword = Keyword(word: string, count: nat, sentiment: Label, score: real)

  function KeywordCount(k: Keyword): int { k.count }

  /** Orders keywords by the first time their word was seen. */
  function KeywordRank(occ: seq<Occurrence>): Keyword -> int {
    (k: Keyword) => FirstIndex(occ, k.word)
  }

  /** The keyword for a Counter entry with score list `scores`: labelled by the
      unrounded mean, reported with the mean rounded to three places. */
  function ToKeyword(wc: WordCount, scores: seq<real>): Keyword
    requires |scores| > 0
  {
    var avg := Mean(scores);
    Keyword(wc.word, wc.count, LabelOf(avg), Round(avg, 3))
  }

  ghost predicate ScoresKnown(pool: seq<WordCount>, sentiments: map<string, seq<real>>) {
    forall i :: 0 <= i < |pool| ==> pool[i].word in sentiments && |sentiments[pool[i].word]| > 0
  }

  /** The loop over the candidate pool: entries counted at least twice become
      keywords, the others are dropped. */
  function Candidates(pool: seq<WordCount>, sentiments: map<string, seq<real>>): seq<Keyword>
    requires ScoresKnown(pool, sentiments)
  {
    if |pool| == 0 then []
    else
      var rest := Candidates(pool[1..], sentiments);
      if pool[0].count >= 2 then [ToKeyword(pool[0], sentiments[pool[0].word])] + rest else rest
  }

  /** Entries of the Counter have their score lists recorded. */
  lemma PoolScoresKnown(occ: seq<Occurrence>, pool: seq<WordCount>)
    requires multiset(pool) <= multiset(TallyOf(occ).counts)
    ensures ScoresKnown(pool, TallyOf(occ).sentiments)
    ensures forall i :: 0 <= i < |pool| ==>
              && pool[i].count == CountOf(occ, pool[i].word) >= 1
              && TallyOf(occ).sentiments[pool[i].word] == ScoresOf(occ, pool[i].word)
  {
    var t := TallyOf(occ);
    TallyCorrect(occ);
    forall i | 0 <= i < |pool|
      ensures pool[i].word in t.sentiments && |t.sentiments[pool[i].word]| > 0
      ensures pool[i].count == CountOf(occ, pool[i].word) >= 1
      ensures t.sentiments[pool[i].word] == ScoresOf(occ, pool[i].word)
    {
      assert pool[i] in multiset(t.counts);
      var j :| 0 <= j < |t.counts| && t.counts[j] == pool[i];
      ScoresMatchCount(occ, pool[i].word);
    }
  }

  /** `extract_keywords(texts, top_n)`. */
  function ExtractKeywords(e: Engine, texts: seq<string>, topN: int): (r: seq<Keyword>)
    ensures |r| <= if topN > 0 then topN else 0
  {
    var occ := Occurrences(e, texts);
    var t := TallyOf(occ);
    var pool := MostCommon(t.counts, CountKey, 2 * topN);
    MostCommonIsTop(t.counts, CountKey, 2 * topN);
    PoolScoresKnown(occ, pool);
    var kept := Candidates(pool, t.sentiments);
    Slice(SortDesc(kept, KeywordCount), topN)
  }

  // ---------------------------------------------------------------------------
  // Properties of the candidate loop
  // ---------------------------------------------------------------------------

  lemma {:induction false} CandidatesFrom(pool: seq<WordCount>, m: map<string, seq<real>>, k: Keyword)
    requires ScoresKnown(pool, m)
    requires k in Candidates(pool, m)
    ensures exists i :: 0 <= i < |pool| && pool[i].count >= 2 && k == ToKeyword(pool[i], m[pool[i].word])
  {
    if |pool| > 0 {
      var rest := Candidates(pool[1..], m);
      if k in rest {
        CandidatesFrom(pool[1..], m, k);
        var i :| 0 <= i < |pool[1..]| && pool[1..][i].count >= 2 && k == ToKeyword(pool[1..][i], m[pool[1..][i].word]);
        assert pool[i + 1] == pool[1..][i];
      }
    }
  }

  lemma {:induction false} CandidatesInclude(pool: seq<WordCount>, m: map<string, seq<real>>, i: nat)
    requires ScoresKnown(pool, m)
    requires i < |pool| && pool[i].count >= 2
    ensures ToKeyword(pool[i], m[pool[i].word]) in Candidates(pool, m)
  {
    if i > 0 {
      CandidatesInclude(pool[1..], m, i - 1);
    }
  }

  lemma {:induction false} CandidatesKeepAll(pool: seq<WordCount>, m: map<string, seq<real>>)
    requires ScoresKnown(pool, m)
    requires forall i :: 0 <= i < |pool| ==> pool[i].count >= 2
    ensures |Candidates(pool, m)| == |pool|
  {
    if |pool| > 0 {
      CandidatesKeepAll(pool[1..], m);
    }
  }

  lemma {:induction false} CandidatesRanked(pool: seq<WordCount>, m: map<string, seq<real>>, occ: seq<Occurrence>)
    requires ScoresKnown(pool, m)
    requires RankedBy(pool, CountKey, SeenRank(occ))
    ensures RankedBy(Candidates(pool, m), KeywordCount, KeywordRank(occ))
  {
    if |pool| > 0 {
      var rest := Candidates(pool[1..], m);
      assert RankedBy(pool[1..], CountKey, SeenRank(occ)) by {
        assert forall i :: 0 <= i < |pool[1..]| ==> pool[1..][i] == pool[i + 1];
      }
      CandidatesRanked(pool[1..], m, occ);
      if pool[0].count >= 2 {
        var head := ToKeyword(pool[0], m[pool[0].word]);
        forall k | k in rest
          ensures KeywordCount(head) > KeywordCount(k) ||
                  (KeywordCount(head) == KeywordCount(k) && KeywordRank(occ)(head) < KeywordRank(occ)(k))
        {
          CandidatesFrom(pool[1..], m, k);
          var i :| 0 <= i < |pool[1..]| && pool[1..][i].count >= 2 && k == ToKeyword(pool[1..][i], m[pool[1..][i].word]);
          assert pool[i + 1] == pool[1..][i];
        }
        ConsRanked(head, rest, KeywordCount, KeywordRank(occ));
      }
    }
  }

  /** Putting in front an element that outranks everything keeps a list ranked. */
  lemma ConsRanked<T>(x: T, rest: seq<T>, key: T -> int, rank: T -> int)
    requires RankedBy(rest, key, rank)
    requires forall y :: y in rest ==> key(x) > key(y) || (key(x) == key(y) && rank(x) < rank(y))
    ensures RankedBy([x] + rest, key, rank)
  {
    var c := [x] + rest;
    forall a, b | 0 <= a < b < |c|
      ensures key(c[a]) > key(c[b]) || (key(c[a]) == key(c[b]) && rank(c[a]) < rank(c[b]))
    {
      assert c[b] == rest[b - 1];
      if a > 0 {
        assert c[a] == rest[a - 1];
      }
    }
  }

  // ---------------------------------------------------------------------------
  // What extract_keywords returns
  // ---------------------------------------------------------------------------

  /** The pieces `ExtractKeywords` is built from, and how they relate. */
  lemma ExtractionSteps(e: Engine, texts: seq<string>, topN: int)
    returns (occ: seq<Occurrence>, pool: seq<WordCount>, kept: seq<Keyword>)
    ensures occ == Occurrences(e, texts)
    ensures multiset(pool) <= multiset(TallyOf(occ).counts)
    ensures ScoresKnown(pool, TallyOf(occ).sentiments)
    ensures pool == MostCommon(TallyOf(occ).counts, CountKey, 2 * topN)
    ensures kept == Candidates(pool, TallyOf(occ).sentiments)
    ensures RankedBy(kept, KeywordCount, KeywordRank(occ))
    ensures NonIncreasing(kept, KeywordCount)
    ensures ExtractKeywords(e, texts, topN) == Slice(kept, topN)
  {
    occ := Occurrences(e, texts);
    var t := TallyOf(occ);
    TallyCorrect(occ);
    pool := MostCommon(t.counts, CountKey, 2 * topN);
    MostCommonIsTop(t.counts, CountKey, 2 * topN);
    PoolScoresKnown(occ, pool);
    kept := Candidates(pool, t.sentiments);
    SortDescStable(t.counts, CountKey, SeenRank(occ));
    if 2 * topN > 0 {
      RankedPrefix(SortDesc(t.counts, CountKey), |pool|, CountKey, SeenRank(occ));
    }
    CandidatesRanked(pool, t.sentiments, occ);
    SortDescOfSorted(kept, KeywordCount);
  }

  /** Every returned keyword was counted at least twice, is not a stop-word,
      carries its number of occurrences over all non-empty texts, and is
      labelled by the unrounded mean of its occurrences' scores, which is
      reported rounded to three places. */
  lemma KeywordFacts(e: Engine, texts: seq<string>, topN: int, k: Keyword)
    requires k in ExtractKeywords(e, texts, topN)
    ensures var occ := Occurrences(e, texts);
            && k.count >= 2
            && k.word !in StopWords
            && k.count == CountOf(occ, k.word)
            && |ScoresOf(occ, k.word)| == k.count
            && k.sentiment == LabelOf(Mean(ScoresOf(occ, k.word)))
            && k.score == Round(Mean(ScoresOf(occ, k.word)), 3)
  {
    var occ, pool, kept := ExtractionSteps(e, texts, topN);
    PoolScoresKnown(occ, pool);
    assert k in kept;
    CandidatesFrom(pool, TallyOf(occ).sentiments, k);
    ScoresMatchCount(occ, k.word);
    OccurrencesAvoidStopWords(e, texts);
    var i := FirstIndex(occ, k.word);
    CountPositiveIffSeen(occ, k.word);
  }

  /** The list is ordered by count, highest first, and equal counts keep the
      order in which their words were first met; so no word appears twice. */
  lemma KeywordsRanked(e: Engine, texts: seq<string>, topN: int)
    ensures RankedBy(ExtractKeywords(e, texts, topN), KeywordCount, KeywordRank(Occurrences(e, texts)))
    ensures |ExtractKeywords(e, texts, topN)| <= if topN > 0 then topN else 0
  {
    var occ, pool, kept := ExtractionSteps(e, texts, topN);
    var r := ExtractKeywords(e, texts, topN);
    RankedPrefix(kept, |r|, KeywordCount, KeywordRank(occ));
    if topN <= 0 {
      assert pool == [];
    }
  }

  /** A pooled word that did not make the list was cut by the final truncation. */
  lemma CompleteWhenPooled(pool: seq<WordCount>, m: map<string, seq<real>>, topN: int, j: nat,
                            occ: seq<Occurrence>)
    requires ScoresKnown(pool, m)
    requires NonIncreasing(Candidates(pool, m), KeywordCount)
    requires RankedBy(Candidates(pool, m), KeywordCount, KeywordRank(occ))
    requires topN > 0 && j < |pool| && pool[j].count >= 2
    requires forall k :: k in Slice(Candidates(pool, m), topN) ==> k.word != pool[j].word
    ensures |Slice(Candidates(pool, m), topN)| == topN
    ensures forall k :: k in Slice(Candidates(pool, m), topN) ==> k.count >= pool[j].count
    ensures forall k :: k in Slice(Candidates(pool, m), topN) ==>
              k.count > pool[j].count
              || (k.count == pool[j].count && FirstIndex(occ, k.word) < FirstIndex(occ, pool[j].word))
  {
    var kept := Candidates(pool, m);
    var r := Slice(kept, topN);
    CandidatesInclude(pool, m, j);
    var kw := ToKeyword(pool[j], m[pool[j].word]);
    var q :| 0 <= q < |kept| && kept[q] == kw;
    assert q >= |r| by {
      assert r == kept[..|r|];
    }
    forall k | k in r
      ensures k.count >= pool[j].count
      ensures k.count > pool[j].count
              || (k.count == pool[j].count && FirstIndex(occ, k.word) < FirstIndex(occ, pool[j].word))
    {
      var a :| 0 <= a < |r| && r[a] == k;
      assert kept[a] == k;
      assert a < q;
      assert KeywordRank(occ)(k) == FirstIndex(occ, k.word);
      assert KeywordRank(occ)(kw) == FirstIndex(occ, pool[j].word);
    }
  }

  /** When the pool was cut at `2 * topN` entries that all count at least `c >= 2`,
      every pool entry is kept and the list is full. */
  lemma CompleteWhenCut(pool: seq<WordCount>, m: map<string, seq<real>>, topN: int, c: int,
                         occ: seq<Occurrence>, f: int)
    requires ScoresKnown(pool, m)
    requires topN > 0 && |pool| == 2 * topN && c >= 2
    requires forall y :: y in pool ==> y.count >= c
    requires forall y :: y in pool ==> y.count > c || (y.count == c && FirstIndex(occ, y.word) < f)
    ensures |Slice(Candidates(pool, m), topN)| == topN
    ensures forall k :: k in Slice(Candidates(pool, m), topN) ==> k.count >= c
    ensures forall k :: k in Slice(Candidates(pool, m), topN) ==>
              k.count > c || (k.count == c && FirstIndex(occ, k.word) < f)
  {
    var kept := Candidates(pool, m);
    CandidatesKeepAll(pool, m);
    forall k | k in Slice(kept, topN)
      ensures k.count >= c
      ensures k.count > c || (k.count == c && FirstIndex(occ, k.word) < f)
    {
      assert k in kept;
      CandidatesFrom(pool, m, k);
      var i :| 0 <= i < |pool| && pool[i].count >= 2 && k == ToKeyword(pool[i], m[pool[i].word]);
      assert pool[i] in pool;
    }
  }

  /** A word that occurs has its entry in the Counter. */
  lemma CounterEntry(occ: seq<Occurrence>, w: string) returns (x: WordCount)
    requires CountOf(occ, w) > 0
    ensures x in TallyOf(occ).counts && x.word == w && x.count == CountOf(occ, w)
  {
    var t := TallyOf(occ);
    TallyCorrect(occ);
    var i :| 0 <= i < |t.counts| && t.counts[i].word == w;
    x := t.counts[i];
  }

  lemma CompleteFromPool(occ: seq<Occurrence>, pool: seq<WordCount>, topN: int, w: string)
    requires topN > 0 && CountOf(occ, w) >= 2
    requires pool == MostCommon(TallyOf(occ).counts, CountKey, 2 * topN)
    requires ScoresKnown(pool, TallyOf(occ).sentiments)
    requires NonIncreasing(Candidates(pool, TallyOf(occ).sentiments), KeywordCount)
    requires RankedBy(Candidates(pool, TallyOf(occ).sentiments), KeywordCount, KeywordRank(occ))
    requires forall k :: k in Slice(Candidates(pool, TallyOf(occ).sentiments), topN) ==> k.word != w
    ensures |Slice(Candidates(pool, TallyOf(occ).sentiments), topN)| == topN
    ensures forall k :: k in Slice(Candidates(pool, TallyOf(occ).sentiments), topN) ==> k.count >= CountOf(occ, w)
    ensures forall k :: k in Slice(Candidates(pool, TallyOf(occ).sentiments), topN) ==>
              k.count > CountOf(occ, w)
              || (k.count == CountOf(occ, w) && FirstIndex(occ, k.word) < FirstIndex(occ, w))
  {
    var t := TallyOf(occ);
    var x := CounterEntry(occ, w);
    MostCommonIsTop(t.counts, CountKey, 2 * topN);
    if x in pool {
      var j :| 0 <= j < |pool| && pool[j] == x;
      CompleteWhenPooled(pool, t.sentiments, topN, j, occ);
    } else {
      TallyCorrect(occ);
      MostCommonTies(t.counts, CountKey, SeenRank(occ), 2 * topN);
      assert x in multiset(t.counts) - multiset(pool);
      SubMultisetShorter(pool, t.counts, x);
      forall y | y in pool
        ensures y.count >= x.count
        ensures y.count > x.count || (y.count == x.count && FirstIndex(occ, y.word) < FirstIndex(occ, w))
      {
        assert CountKey(y) >= CountKey(x);
        assert SeenRank(occ)(y) == FirstIndex(occ, y.word) && SeenRank(occ)(x) == FirstIndex(occ, w);
      }
      CompleteWhenCut(pool, t.sentiments, topN, x.count, occ, FirstIndex(occ, w));
    }
  }

  /** Nothing frequent is left out without cause: a word counted at least
      twice is missing only when the list is full of words that count more,
      or as much and were seen first. */
  lemma KeywordsComplete(e: Engine, texts: seq<string>, topN: int, w: string)
    requires CountOf(Occurrences(e, texts), w) >= 2
    requires forall k :: k in ExtractKeywords(e, texts, topN) ==> k.word != w
    ensures |ExtractKeywords(e, texts, topN)| == if topN > 0 then topN else 0
    ensures forall k :: k in ExtractKeywords(e, texts, topN) ==>
              k.count >= CountOf(Occurrences(e, texts), w)
    ensures forall k :: k in ExtractKeywords(e, texts, topN) ==>
              k.count > CountOf(Occurrences(e, texts), w)
              || (k.count == CountOf(Occurrences(e, texts), w)
                  && FirstIndex(Occurrences(e, texts), k.word) < FirstIndex(Occurrences(e, texts), w))
  {
    var occ, pool, kept := ExtractionSteps(e, texts, topN);
    if topN <= 0 {
      assert pool == [] && kept == [];
    } else {
      CompleteFromPool(occ, pool, topN, w);
    }
  }

  lemma {:induction false} KeptAvoidsStopWords(tokens: seq<string>, c: real)
    ensures forall i :: 0 <= i < |Kept(tokens, c)| ==> Kept(tokens, c)[i].word !in StopWords
  {
    if |tokens| > 0 {
      KeptAvoidsStopWords(tokens[1..], c);
    }
  }

  /** No stop-word is ever counted. */
  lemma {:induction false} OccurrencesAvoidStopWords(e: Engine, texts: seq<string>)
    ensures forall i :: 0 <= i < |Occurrences(e, texts)| ==> Occurrences(e, texts)[i].word !in StopWords
  {
    if |texts| > 0 {
      OccurrencesAvoidStopWords(e, texts[1..]);
      TextAvoidsStopWords(e, texts[0]);
      ConcatAvoidsStopWords(TextOccurrences(e, texts[0]), Occurrences(e, texts[1..]));
    }
  }

  lemma TextAvoidsStopWords(e: Engine, text: string)
    ensures forall i :: 0 <= i < |TextOccurrences(e, text)| ==> TextOccurrences(e, text)[i].word !in StopWords
  {
    if text != "" {
      KeptAvoidsStopWords(Tokens(e.unicodeWord, text), Compound(e, text));
    }
  }

  lemma ConcatAvoidsStopWords(a: seq<Occurrence>, b: seq<Occurrence>)
    requires forall i :: 0 <= i < |a| ==> a[i].word !in StopWords
    requires forall i :: 0 <= i < |b| ==> b[i].word !in StopWords
    ensures forall i :: 0 <= i < |a + b| ==> (a + b)[i].word !in StopWords
  {
    forall i | 0 <= i < |a + b| ensures (a + b)[i].word !in StopWords {
      if i >= |a| {
        assert (a + b)[i] == b[i - |a|];
      }
    }
  }

  // ---------------------------------------------------------------------------
  // Scores are collected per occurrence
  // ---------------------------------------------------------------------------

  /** How many of `tokens` are `w`. */
  function Occurs(tokens: seq<string>, w: string): nat {
    if |tokens| == 0 then 0 else (if tokens[0] == w then 1 else 0) + Occurs(tokens[1..], w)
  }

  /** `n` copies of `x`. */
  function Repeat(x: real, n: nat): (r: seq<real>)
    ensures |r| == n
    ensures forall i :: 0 <= i < n ==> r[i] == x
  {
    if n == 0 then [] else [x] + Repeat(x, n - 1)
  }

  /** The scores a word collects, text by text: each non-empty text adds its
      compound score once for every time the word occurs in it, and a
      stop-word collects none. */
  function WeightedScores(e: Engine, texts: seq<string>, w: string): seq<real> {
    if |texts| == 0 then []
    else
      var n := if texts[0] == "" || w in StopWords then 0 else Occurs(Tokens(e.unicodeWord, texts[0]), w);
      Repeat(Compound(e, texts[0]), n) + WeightedScores(e, texts[1..], w)
  }

  lemma {:induction false} ScoresOfConcat(a: seq<Occurrence>, b: seq<Occurrence>, w: string)
    ensures ScoresOf(a + b, w) == ScoresOf(a, w) + ScoresOf(b, w)
    decreases |b|
  {
    if |b| == 0 {
      assert a + b == a;
    } else {
      SplitLast(a, b);
      ScoresOfConcat(a, b[..|b| - 1], w);
    }
  }

  lemma ScoresOfOne(o: Occurrence, w: string)
    ensures ScoresOf([o], w) == if o.word == w then [o.compound] else []
  {
    assert [o][..0] == [];
  }

  lemma {:induction false} ScoresOfKept(tokens: seq<string>, c: real, w: string)
    ensures ScoresOf(Kept(tokens, c), w) == Repeat(c, if w in StopWords then 0 else Occurs(tokens, w))
  {
    if |tokens| == 0 {
      assert ScoresOf([], w) == [];
    } else {
      var head: seq<Occurrence> := if tokens[0] in StopWords then [] else [Occurrence(tokens[0], c)];
      ScoresOfConcat(head, Kept(tokens[1..], c), w);
      ScoresOfKept(tokens[1..], c, w);
      if tokens[0] !in StopWords {
        ScoresOfOne(Occurrence(tokens[0], c), w);
      }
      var n := if w in StopWords then 0 else Occurs(tokens[1..], w);
      if tokens[0] == w && w !in StopWords {
        assert Repeat(c, n + 1) == [c] + Repeat(c, n);
      } else {
        assert ScoresOf(head, w) == [];
        assert [] + ScoresOf(Kept(tokens[1..], c), w) == Repeat(c, n);
      }
    }
  }

  /** A keyword's score list holds one entry per occurrence: a text that
      uses the word three times weighs three times in its average. */
  lemma {:induction false} ScoresPerOccurrence(e: Engine, texts: seq<string>, w: string)
    ensures ScoresOf(Occurrences(e, texts), w) == WeightedScores(e, texts, w)
  {
    if |texts| == 0 {
      assert ScoresOf([], w) == [];
    } else {
      ScoresOfConcat(TextOccurrences(e, texts[0]), Occurrences(e, texts[1..]), w);
      ScoresPerOccurrence(e, texts[1..], w);
      if texts[0] == "" {
        assert ScoresOf([], w) == [];
        assert Repeat(Compound(e, texts[0]), 0) == [];
      } else {
        ScoresOfKept(Tokens(e.unicodeWord, texts[0]), Compound(e, texts[0]), w);
      }
    }
  }

  /** Every returned keyword is scored by the per-occurrence average: its
      count is the number of its occurrences, its label that of the average,
      its score the average rounded to three places. */
  lemma KeywordScoreIsWeighted(e: Engine, texts: seq<string>, topN: int, k: Keyword)
    requires k in ExtractKeywords(e, texts, topN)
    ensures var ws := WeightedScores(e, texts, k.word);
            && |ws| == k.count >= 2
            && k.sentiment == LabelOf(Mean(ws))
            && k.score == Round(Mean(ws), 3)
  {
    KeywordFacts(e, texts, topN, k);
    ScoresPerOccurrence(e, texts, k.word);
  }
}
