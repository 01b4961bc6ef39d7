/** `analyze_reviews` (backend/services/sentiment.py): the summary of a batch
    of reviews — the overall label, how many comments fall under each label,
    the average compound score, and the keywords. */
module Aggregate {
  import opened Wrappers
  import opened Numeric
  import opened Sentiment
  import opened Keywords
  import opened Sources
  import opened Ranking

  /** `review.get("comment", "")`: a missing key reads as `""`, a `None` value
      stays `None`. */
  function CommentOf(d: ReviewData): Option<string> {
    d.comment.Get("")
  }

  /** The comments that are analysed: the truthy ones, in review order. */
  function Comments(reviews: seq<ReviewData>): seq<string> {
    if |reviews| == 0 then []
    else
      (if Truthy(CommentOf(reviews[0])) then [CommentOf(reviews[0]).value] else [])
      + Comments(reviews[1..])
  }

  /** The compound score of each comment. */
  function Compounds(e: Engine, texts: seq<string>): (cs: seq<real>)
    ensures |cs| == |texts|
    ensures forall i :: 0 <= i < |cs| ==> cs[i] == Compound(e, texts[i])
  {
    if |texts| == 0 then [] else [Compound(e, texts[0])] + Compounds(e, texts[1..])
  }

  /** The label counts, keyed as the analyzer keys them. */
  datatype Breakdown = Breakdown(positive: nat, negative: nat, neutral: nat) {
    function Total(): nat {
      positive + negative + neutral
    }

    /** `breakdown[label] += 1`. */
    function Add(l: Label): (b: Breakdown)
      ensures b.Total() == Total() + 1
    {
      match l
      case Positive => this.(positive := positive + 1)
      case Negative => this.(negative := negative + 1)
      case Neutral => this.(neutral := neutral + 1)
    }

    function Plus(other: Breakdown): Breakdown {
      Breakdown(positive + other.positive, negative + other.negative, neutral + other.neutral)
    }

    /** The count kept under label `l`. */
    function Of(l: Label): nat {
      match l
      case Positive => positive
      case Negative => negative
      case Neutral => neutral
    }
  }

  const NoLabels := Breakdown(0, 0, 0)

  /** The labelling loop: one label per compound score, counted in order. */
  function Tallied(cs: seq<real>): Breakdown {
    if |cs| == 0 then NoLabels
    else Tallied(cs[..|cs| - 1]).Add(LabelOf(cs[|cs| - 1]))
  }

  /** The label of each compound score. */
  function Labels(cs: seq<real>): (ls: seq<Label>)
    ensures |ls| == |cs|
    ensures forall i :: 0 <= i < |cs| ==> ls[i] == LabelOf(cs[i])
  {
    if |cs| == 0 then [] else Labels(cs[..|cs| - 1]) + [LabelOf(cs[|cs| - 1])]
  }

  /** The summary `analyze_reviews` returns. */
  datatype Summary = Summary(overall: Label, breakdown: Breakdown, averageScore: real,
                             keywords: seq<Keyword>)

  /** The summary of a batch with nothing to analyse. */
  const EmptySummary := Summary(Neutral, NoLabels, 0.0, [])

  /** `extract_keywords` is called with its default `top_n`. */
  const KeywordLimit: int := 20

  /** `analyze_reviews`: an empty batch, or one without a truthy comment, gets
      the empty summary; otherwise the comments are scored, labelled and
      averaged, the overall label is that of the unrounded average, and the
      comments' keywords are extracted. */
  function AnalyzeReviews(e: Engine, reviews: seq<ReviewData>): (s: Summary)
    ensures s == EmptySummary <==> |Comments(reviews)| == 0
    ensures s.breakdown.Total() == |Comments(reviews)|
  {
    if |reviews| == 0 then EmptySummary
    else
      var texts := Comments(reviews);
      if |texts| == 0 then EmptySummary
      else
        var cs := Compounds(e, texts);
        TalliedTotal(cs);
        var avg := Mean(cs);
        Summary(LabelOf(avg), Tallied(cs), Round(avg, 3), ExtractKeywords(e, texts, KeywordLimit))
  }

  // ---------------------------------------------------------------------------
  // Which comments are analysed
  // ---------------------------------------------------------------------------

  lemma {:induction false} CommentsConcat(a: seq<ReviewData>, b: seq<ReviewData>)
    ensures Comments(a + b) == Comments(a) + Comments(b)
  {
    if |a| == 0 {
      assert a + b == b;
    } else {
      assert (a + b)[1..] == a[1..] + b;
      CommentsConcat(a[1..], b);
    }
  }

  /** A text is analysed exactly when some review holds it as a non-empty
      comment; a missing comment, a `None` comment and `""` are all skipped. */
  lemma {:induction false} CommentsCharacterisation(reviews: seq<ReviewData>, c: string)
    ensures c in Comments(reviews) <==>
              c != "" && exists i :: 0 <= i < |reviews| && reviews[i].comment == Value(c)
  {
    if |reviews| > 0 {
      CommentsCharacterisation(reviews[1..], c);
      if c != "" && reviews[0].comment != Value(c) && c in Comments(reviews[1..]) {
        var i :| 0 <= i < |reviews[1..]| && reviews[1..][i].comment == Value(c);
        assert reviews[i + 1].comment == Value(c);
      }
      if c != "" && exists i :: 0 <= i < |reviews| && reviews[i].comment == Value(c) {
        var i :| 0 <= i < |reviews| && reviews[i].comment == Value(c);
        if i > 0 {
          assert reviews[1..][i - 1].comment == Value(c);
        }
      }
    }
  }

  /** The dumped reviews of a fetch are analysed by their non-empty comments. */
  lemma {:induction false} CommentsOfFetched(rs: seq<Review>)
    ensures Comments(seq(|rs|, i requires 0 <= i < |rs| => ToData(rs[i])))
            == NonEmptyComments(rs)
  {
    var ds := seq(|rs|, i requires 0 <= i < |rs| => ToData(rs[i]));
    if |rs| > 0 {
      CommentsOfFetched(rs[1..]);
      assert ds[1..] == seq(|rs[1..]|, i requires 0 <= i < |rs[1..]| => ToData(rs[1..][i]));
    }
  }

  /** `[r.comment for r in rs if r.comment]`. */
  function NonEmptyComments(rs: seq<Review>): seq<string> {
    if |rs| == 0 then []
    else (if rs[0].comment != "" then [rs[0].comment] else []) + NonEmptyComments(rs[1..])
  }

  // ---------------------------------------------------------------------------
  // The breakdown
  // ---------------------------------------------------------------------------

  lemma {:induction false} TalliedTotal(cs: seq<real>)
    ensures Tallied(cs).Total() == |cs|
  {
    if |cs| > 0 {
      TalliedTotal(cs[..|cs| - 1]);
    }
  }

  /** Each count is the number of scores carrying that label. */
  lemma {:induction false} TalliedCountsLabels(cs: seq<real>, l: Label)
    ensures Tallied(cs).Of(l) == multiset(Labels(cs))[l]
  {
    if |cs| > 0 {
      var init := cs[..|cs| - 1];
      TalliedCountsLabels(init, l);
      assert multiset(Labels(cs)) == multiset(Labels(init)) + multiset{LabelOf(cs[|cs| - 1])};
    }
  }

  /** Labelling two batches and adding the counts is labelling them together. */
  lemma {:induction false} TalliedConcat(a: seq<real>, b: seq<real>)
    ensures Tallied(a + b) == Tallied(a).Plus(Tallied(b))
    decreases |b|
  {
    if |b| == 0 {
      assert a + b == a;
      PlusNone(Tallied(a));
    } else {
      TalliedConcat(a, b[..|b| - 1]);
      SplitLast(a, b);
      TalliedSnoc(a, b[..|b| - 1], b[|b| - 1]);
    }
  }

  lemma TalliedSnoc(a: seq<real>, b: seq<real>, x: real)
    requires Tallied(a + b) == Tallied(a).Plus(Tallied(b))
    ensures Tallied(a + b + [x]) == Tallied(a).Plus(Tallied(b + [x]))
  {
    var ab := a + b + [x];
    assert ab[..|ab| - 1] == a + b;
    var bx := b + [x];
    assert bx[..|bx| - 1] == b;
    PlusAdd(Tallied(a), Tallied(b), LabelOf(x));
  }

  lemma SplitAt<T>(a: seq<T>, b: seq<T>, i: nat)
    requires |a| > 0 && i < |b| && a[0] == b[i]
    ensures [a[0]] + a[1..] == a
    ensures b == b[..i] + [b[i]] + b[i + 1..]
  {
  }

  lemma PlusNone(p: Breakdown)
    ensures p.Plus(NoLabels) == p && NoLabels.Plus(p) == p
  {
  }

  lemma PlusRegroup(p: Breakdown, q: Breakdown, r: Breakdown)
    ensures p.Plus(q).Plus(r) == q.Plus(p.Plus(r))
  {
  }

  lemma PlusAdd(p: Breakdown, q: Breakdown, l: Label)
    ensures p.Plus(q).Add(l) == p.Plus(q.Add(l))
  {
  }

  /** The breakdown does not depend on the order of the comments. */
  lemma {:induction false} TalliedPermutation(a: seq<real>, b: seq<real>)
    requires multiset(a) == multiset(b)
    ensures Tallied(a) == Tallied(b)
    decreases |a|
  {
    if |a| == 0 {
      assert |b| == |multiset(b)| == 0;
    } else {
      var i := PermutationStep(a, b);
      TalliedPermutation(a[1..], b[..i] + b[i + 1..]);
      var l, m, r := b[..i], [b[i]], b[i + 1..];
      TalliedConcat(m, a[1..]);
      SplitAt(a, b, i);
      TalliedConcat(l + m, r);
      TalliedConcat(l, m);
      TalliedConcat(l, r);
      PlusRegroup(Tallied(l), Tallied(m), Tallied(r));
    }
  }

  // ---------------------------------------------------------------------------
  // The summary
  // ---------------------------------------------------------------------------

  /** A batch with at least one comment is summarised by the mean of its
      comments' compound scores: the overall label is that mean's label, the
      reported score is the mean rounded to three places and stays within
      [-1, 1], and the keywords are those of the comments, at most twenty. */
  lemma SummaryFacts(e: Engine, reviews: seq<ReviewData>)
    requires |Comments(reviews)| > 0
    ensures var texts := Comments(reviews);
            var cs := Compounds(e, texts);
            var m := Mean(cs);
            var s := AnalyzeReviews(e, reviews);
            && -1.0 <= m <= 1.0
            && s.overall == LabelOf(m)
            && s.averageScore == Round(m, 3)
            && -1.0 <= s.averageScore <= 1.0
            && s.breakdown == Tallied(cs)
            && s.keywords == ExtractKeywords(e, texts, KeywordLimit)
            && |s.keywords| <= KeywordLimit
  {
    var texts := Comments(reviews);
    var cs := Compounds(e, texts);
    MeanBetween(cs, -1.0, 1.0);
    KeywordsRanked(e, texts, KeywordLimit);
  }

  /** The breakdown is the label count of the comments' scores, also for a
      batch with nothing to analyse. */
  lemma BreakdownIsTallied(e: Engine, reviews: seq<ReviewData>)
    ensures AnalyzeReviews(e, reviews).breakdown == Tallied(Compounds(e, Comments(reviews)))
  {
    if |Comments(reviews)| == 0 {
      assert Compounds(e, Comments(reviews)) == [];
    }
  }

  /** Analysing two batches and adding their breakdowns gives the breakdown
      of the two batches analysed together. */
  lemma BreakdownConcat(e: Engine, a: seq<ReviewData>, b: seq<ReviewData>)
    ensures AnalyzeReviews(e, a + b).breakdown
            == AnalyzeReviews(e, a).breakdown.Plus(AnalyzeReviews(e, b).breakdown)
  {
    CommentsConcat(a, b);
    CompoundsConcat(e, Comments(a), Comments(b));
    TalliedConcat(Compounds(e, Comments(a)), Compounds(e, Comments(b)));
    BreakdownIsTallied(e, a);
    BreakdownIsTallied(e, b);
    BreakdownIsTallied(e, a + b);
  }

  /** When every comment carries the same label, so does the batch, and the
      breakdown puts every comment under it. */
  lemma UnanimousLabel(e: Engine, reviews: seq<ReviewData>, l: Label)
    requires |Comments(reviews)| > 0
    requires forall c :: c in Comments(reviews) ==> LabelOf(Compound(e, c)) == l
    ensures AnalyzeReviews(e, reviews).overall == l
    ensures AnalyzeReviews(e, reviews).breakdown.Of(l) == |Comments(reviews)|
  {
    var texts := Comments(reviews);
    var cs := Compounds(e, texts);
    assert forall i :: 0 <= i < |cs| ==> LabelOf(cs[i]) == l by {
      forall i | 0 <= i < |cs| ensures LabelOf(cs[i]) == l {
        assert texts[i] in texts;
      }
    }
    MeanWithinRange(cs);
    var lo, hi := Min(cs), Max(cs);
    LabelMonotone(lo, Mean(cs));
    LabelMonotone(Mean(cs), hi);
    TalliedUniform(cs, l);
  }

  lemma {:induction false} TalliedUniform(cs: seq<real>, l: Label)
    requires forall i :: 0 <= i < |cs| ==> LabelOf(cs[i]) == l
    ensures Tallied(cs).Of(l) == |cs|
  {
    if |cs| > 0 {
      TalliedUniform(cs[..|cs| - 1], l);
    }
  }

  /** Reordering the reviews changes neither the overall label, the
      breakdown nor the average score. */
  lemma SummaryOrderInvariant(e: Engine, a: seq<ReviewData>, b: seq<ReviewData>)
    requires multiset(a) == multiset(b)
    ensures AnalyzeReviews(e, a).overall == AnalyzeReviews(e, b).overall
    ensures AnalyzeReviews(e, a).breakdown == AnalyzeReviews(e, b).breakdown
    ensures AnalyzeReviews(e, a).averageScore == AnalyzeReviews(e, b).averageScore
  {
    CommentsPermutation(a, b);
    var ta, tb := Comments(a), Comments(b);
    assert |ta| == |multiset(ta)| == |multiset(tb)| == |tb|;
    if |ta| > 0 {
      CompoundsPermutation(e, ta, tb);
      var ca, cb := Compounds(e, ta), Compounds(e, tb);
      MeanPermutation(ca, cb);
      TalliedPermutation(ca, cb);
    }
  }

  lemma {:induction false} CommentsPermutation(a: seq<ReviewData>, b: seq<ReviewData>)
    requires multiset(a) == multiset(b)
    ensures multiset(Comments(a)) == multiset(Comments(b))
    decreases |a|
  {
    if |a| == 0 {
      assert |b| == |multiset(b)| == 0;
    } else {
      var i := PermutationStep(a, b);
      var l, m, r := b[..i], [b[i]], b[i + 1..];
      CommentsPermutation(a[1..], l + r);
      SplitAt(a, b, i);
      CommentsConcat(m, a[1..]);
      CommentsConcat(l + m, r);
      CommentsConcat(l, m);
      CommentsConcat(l, r);
    }
  }

  lemma {:induction false} CompoundsConcat(e: Engine, a: seq<string>, b: seq<string>)
    ensures Compounds(e, a + b) == Compounds(e, a) + Compounds(e, b)
  {
    var l, r := Compounds(e, a + b), Compounds(e, a) + Compounds(e, b);
    assert |l| == |r|;
    forall i | 0 <= i < |l| ensures l[i] == r[i] {
      if i < |a| {
        assert (a + b)[i] == a[i];
      } else {
        assert (a + b)[i] == b[i - |a|];
      }
    }
  }

  lemma {:induction false} CompoundsPermutation(e: Engine, a: seq<string>, b: seq<string>)
    requires multiset(a) == multiset(b)
    ensures multiset(Compounds(e, a)) == multiset(Compounds(e, b))
    decreases |a|
  {
    if |a| == 0 {
      assert |b| == |multiset(b)| == 0;
    } else {
      var i := PermutationStep(a, b);
      var l, m, r := b[..i], [b[i]], b[i + 1..];
      CompoundsPermutation(e, a[1..], l + r);
      SplitAt(a, b, i);
      CompoundsConcat(e, m, a[1..]);
      CompoundsConcat(e, l + m, r);
      CompoundsConcat(e, l, m);
      CompoundsConcat(e, l, r);
    }
  }
}
