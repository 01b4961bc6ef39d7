# Perception Scanner: sentiment engine, review record and store, in Dafny

Perception Scanner collects reviews of a product from several platforms and
reports what people think of it. This project models three parts of its
backend:

- the sentiment analyzer (`backend/services/sentiment.py`). It scores one
  text, names the polarity of a score, extracts the frequent keywords of a
  batch of comments with their average sentiment, and summarises a batch of
  reviews.
- the normalised review record every platform fetcher returns, and the
  average star rating (`backend/services/sources/base.py`).
- the database service (`backend/database/service.py`). It finds or creates
  products, saves reviews without duplicates, saves sentiment snapshots, and
  reads reviews and snapshots back.

Modules, in dependency order:

| file | module | what it holds |
|---|---|---|
| `wrappers.dfy` | `Wrappers` | `Option`; `Field`, a dict entry that is missing, `None` or a value; Python truthiness of an optional string |
| `numeric.dfy` | `Numeric` | sums and means over exact reals; Python's `round` (half to even) |
| `text.dfy` | `Text` | the tokenizer `re.findall(r'\b[a-zA-Z]{3,}\b', text.lower())`, written both as a regex matcher and as a run scanner, and proved equal |
| `ranking.dfy` | `Ranking` | stable sort by a key, highest first; `Counter.most_common`; Python slicing; filtering |
| `sentiment.dfy` | `Sentiment` | `analyze_text`, `get_sentiment_label` |
| `keywords.dfy` | `Keywords` | `extract_keywords`, with the word counter and score lists as folds, and reference definitions they are proved equal to |
| `sources.dfy` | `Sources` | `Review`, `SourceResult`, `calculate_average_rating` |
| `aggregate.dfy` | `Aggregate` | `analyze_reviews` |
| `store.dfy` | `Store` | `DatabaseService` over an immutable in-memory store |

What the model takes as given:

- VADER's `polarity_scores` is a parameter (`Engine.vader`). Its compound
  score is assumed to lie in [-1, 1], as VADER documents.
- The table of non-ASCII characters that Python's `\b` counts as word
  characters is a parameter (`Engine.unicodeWord`).
- The clock is a parameter `now`, an integer count of seconds.
- Floats are exact reals.

Two behaviours worth knowing:

- The overall label of a batch is the label of the mean compound score, not
  the label held by most comments.
- A keyword's score list gets one entry per occurrence of the word, not one
  per text. A text that uses a word three times weighs three times in that
  word's average (`Keywords.ScoresPerOccurrence`).

## Model

| member | source | states |
|---|---|---|
| `Sentiment.AnalyzeText` | backend/services/sentiment.py:11-22 | an empty text gets the fixed neutral scores (compound 0, neutral 1) without consulting VADER; any other text gets exactly VADER's scores for it |
| `Sentiment.EmptyTextIgnoresScorer` | backend/services/sentiment.py:13-14 | the empty text's scores do not depend on the scorer: 0.0 / 0.0 / 0.0 / 1.0 |
| `Sentiment.NonEmptyTextUsesScorer` | backend/services/sentiment.py:16-22 | a non-empty text's scores are VADER's scores for that text |
| `Sentiment.LabelOf` | backend/services/sentiment.py:24-31 | positive iff score ≥ 0.05, negative iff score ≤ -0.05, neutral iff strictly between |
| `Sentiment.LabelMonotone` | backend/services/sentiment.py:24-31 | a higher score never gets a lower label |
| `Sentiment.LabelBoundaries` | backend/services/sentiment.py:26-31 | 0.05 is positive, -0.05 negative, ±0.049 neutral |
| `Sentiment.LabelPrecedesRounding` | backend/services/sentiment.py:70-75 | the label is taken from the unrounded average, so 0.0496 is neutral though reported as 0.05 |
| `Numeric.Round` | backend/services/sentiment.py:75 | `round(x, n)` lies on the grid of multiples of 10^-n, is a grid value nearest to x, is at most half a unit from x, and keeps a value in [-1, 1] inside [-1, 1] |
| `Text.TokensAreFindAll` | backend/services/sentiment.py:57 | the run scanner equals `re.findall` of the token pattern over the lowered text |
| `Text.Tokens` | backend/services/sentiment.py:57 | every token is a run of at least three ASCII letters; its partner `Text.TokensAreFindAll` equates it with `re.findall` of the token pattern over the lowered text |
| `Text.TokenCharacterisation` | backend/services/sentiment.py:57 | t is a token iff it is a run of ≥ 3 ASCII letters of the lowered text with no word character on either side |
| `Text.TokenShape` | backend/services/sentiment.py:57 | every token is at least three lower-case ASCII letters |
| `Text.TokenExamples` | backend/services/sentiment.py:57 | letters touching a digit ("abc123") or a non-ASCII letter ("Café") give no token |
| `Text.TokenExampleKept` | backend/services/sentiment.py:57 | "Nice UI!" gives exactly ["nice"]: lowered, and two-letter words dropped |
| `Keywords.OccurrencesAvoidStopWords` | backend/services/sentiment.py:53-65 | no stop-word is ever counted |
| `Keywords.TallyCorrect` | backend/services/sentiment.py:50-65 | the Counter and the score lists built by the loop equal the reference counts, score lists and first-seen order of the occurrence stream |
| `Keywords.TallyOf` | backend/services/sentiment.py:50-65 | the Counter has at most one entry per occurrence and its counts add up to the number of occurrences; its partner `Keywords.TallyCorrect` equates it with the reference counts and score lists |
| `Keywords.ScoresMatchCount` | backend/services/sentiment.py:62-65 | a word's score list is as long as its count |
| `Keywords.ScoresPerOccurrence` | backend/services/sentiment.py:53-65 | a word's score list repeats a text's compound once per occurrence in it; empty texts and stop-words add nothing |
| `Keywords.KeywordFacts` | backend/services/sentiment.py:67-76 | every keyword is counted ≥ 2 times and is no stop-word; its count is its occurrence count; its label is that of the unrounded mean score; its score is that mean rounded to 3 places |
| `Keywords.ExtractKeywords` | backend/services/sentiment.py:33-78 | at most `top_n` keywords, none for `top_n` ≤ 0; `Keywords.KeywordFacts`, `Keywords.KeywordsRanked` and `Keywords.KeywordsComplete` state what each keyword holds, their order and that no frequent word is missed |
| `Keywords.KeywordScoreIsWeighted` | backend/services/sentiment.py:60-75 | a keyword's count, label and score come from the per-occurrence weighted scores of the texts |
| `Keywords.KeywordsRanked` | backend/services/sentiment.py:68-78 | the list is ordered by count, highest first, ties in first-seen order, and has at most top_n entries (none if top_n ≤ 0) |
| `Keywords.KeywordsComplete` | backend/services/sentiment.py:67-78 | a word counted ≥ 2 times is missing only when the list is full of words that each count more, or count the same and were seen first |
| `Ranking.SortDescStable` | backend/services/sentiment.py:78 | `sorted(..., reverse=True)` is stable: highest key first, equal keys in input order |
| `Ranking.MostCommonIsTop` | backend/services/sentiment.py:68 | `most_common(n)` keeps exactly min(n, len) entries (none for n ≤ 0), drawn from the counter, highest count first; nothing left out has a higher count than anything kept |
| `Ranking.MostCommon` | backend/services/sentiment.py:68 | `most_common(n)` has min(n, len) entries (none for n ≤ 0), drawn from the counter, highest count first; `Ranking.MostCommonTies` adds the first-seen order among equal counts |
| `Ranking.MostCommonTies` | backend/services/sentiment.py:68 | for entries listed in first-seen order, `most_common(n)` is ordered by count and then first sighting, and every entry left out counts less than each kept one, or the same and was seen later |
| `Ranking.MostCommonTieExample` | backend/services/sentiment.py:68 | of two entries with count 2, `most_common(1)` keeps the one seen first |
| `Ranking.Slice` | backend/services/sentiment.py:78 | `xs[:n]` is a prefix of xs; for n ≥ 0 it has min(n, len) elements, and for n < 0 it drops the last -n elements (none left when -n ≥ len) |
| `Aggregate.AnalyzeReviews` | backend/services/sentiment.py:80-126 | the empty summary is returned iff no review has a truthy comment; the breakdown counts every analysed comment once |
| `Aggregate.CommentsCharacterisation` | backend/services/sentiment.py:93-98 | a text is analysed iff some review holds it as a non-empty comment; missing, `None` and `""` comments are skipped |
| `Aggregate.CommentsOfFetched` | backend/services/sentiment.py:93-98 | the dumped reviews of a fetch are analysed by exactly their non-empty comments, in order |
| `Sources.ToData` | backend/services/sources/base.py:10-17 | the dict of a fetched review has every key: id, user, comment and date as given, a `None` rating or like count as an explicit null, any other as given |
| `Aggregate.TalliedTotal` | backend/services/sentiment.py:108-114 | the three counts add up to the number of scores |
| `Aggregate.TalliedCountsLabels` | backend/services/sentiment.py:111-114 | each count is the number of scores carrying that label |
| `Aggregate.TalliedConcat` | backend/services/sentiment.py:108-114 | counting two batches and adding the counts is counting them together |
| `Aggregate.TalliedPermutation` | backend/services/sentiment.py:108-114 | the counts do not depend on the order of the scores |
| `Aggregate.SummaryFacts` | backend/services/sentiment.py:108-126 | overall is the label of the mean compound; average_score is the mean rounded to 3 places and lies in [-1, 1]; keywords are those of the comments with top_n 20, so at most 20 |
| `Aggregate.BreakdownConcat` | backend/services/sentiment.py:80-114 | the label breakdown of two batches analysed together is the sum of their separate breakdowns |
| `Aggregate.UnanimousLabel` | backend/services/sentiment.py:108-117 | when every comment has the same label, so does the batch, and every comment is counted under it |
| `Aggregate.SummaryOrderInvariant` | backend/services/sentiment.py:93-124 | reordering the reviews changes neither the overall label, the breakdown nor the average score |
| `Sources.DefaultsAreNone` | backend/services/sources/base.py:10-27 | a review built without rating or like count has `None` for both (not 0) and keeps its required comment; a result built without an error has `None` |
| `Sources.AverageRating` | backend/services/sources/base.py:39-44 | 0.0 when no review has a rating, else between the lowest and the highest rating, give or take 0.005 |
| `Sources.AverageIsRoundedMean` | backend/services/sources/base.py:41-44 | the average is the mean of the ratings rounded to 2 places, within 0.005 of it |
| `Sources.AverageIgnoresUnrated` | backend/services/sources/base.py:41 | adding or removing an unrated review leaves the average unchanged |
| `Sources.ZeroRatingCounts` | backend/services/sources/base.py:41 | a rating of 0.0 is counted: it adds one to the count and nothing to the sum |
| `Sources.AverageOrderInvariant` | backend/services/sources/base.py:41-44 | the average does not depend on the order of the reviews |
| `Store.ProductByName` | backend/database/service.py:65-67 | `None` iff no product has that name; else the product found has it |
| `Store.GetOrCreateProduct` | backend/database/service.py:15-63 | an unknown name appends a product with the given ids and the next id; a known one keeps its id and creation time, gets the merged ids, and is re-stamped only if something was filled; no other product is lost |
| `Store.MergeKeepsSetIds` | backend/database/service.py:40-56 | a set id is never overwritten; a truthy argument always ends up in a truthy column; each column ends as the stored or the given value |
| `Store.FillsIffChanged` | backend/database/service.py:41-58 | `updated` is raised iff the merge changes a column |
| `Store.MergeIdempotent` | backend/database/service.py:40-56 | merging the same ids again fills nothing and changes nothing |
| `Store.GetOrCreateIdempotent` | backend/database/service.py:25-63 | a second call with the same arguments, at any time, returns the same product and changes nothing |
| `Store.GetOrCreateKeepsValid` | backend/database/service.py:27-38 | row ids stay equal to position + 1 |
| `Store.SaveReviews` | backend/database/service.py:70-120 | exactly the inputs whose (product, external id, platform) was not stored before the call are appended, in input order, with consecutive new ids, the call time, the comment's compound score and its label; the user defaults to "Anonymous", the date to "", the rating is kept, and a missing or `None` like count is stored as the column default 0 |
| `Store.NewRows` | backend/database/service.py:79-115 | one row per not-yet-stored input, the i-th built from the i-th such input with id next + i |
| `Store.SkipsStored` | backend/database/service.py:83-92 | a batch whose keys are all stored changes nothing and returns nothing |
| `Store.SaveTwiceSavesOnce` | backend/database/service.py:79-120 | saving the same batch again, at any time, saves nothing |
| `Store.BatchDuplicatesBothSaved` | backend/database/service.py:83-92 | two inputs with the same new key in one batch are both saved, because the check reads only committed rows |
| `Store.SaveReviewsKeepsValid` | backend/database/service.py:114-118 | row ids stay equal to position + 1 |
| `Store.FetchedReviewStored` | backend/database/service.py:95-112 | a dumped fetched review keeps its id, user, rating, date and comment; an unknown like count is stored as 0; it is scored by its comment |
| `Store.Construct` | backend/database/models.py:31-47 | for the keywords this project passes, the constructor succeeds iff each names a column or the relationship |
| `Store.ConstructRejectsSaveKeywords` | backend/database/service.py:98-113 | the keywords as passed are rejected at `user_image`, whatever the row |
| `Store.AsWrittenNeverSaves` | backend/database/service.py:79-120 | as written, the call raises iff some input is new, and otherwise returns the store unchanged with nothing saved |
| `Store.AsWrittenRejectsNewReview` | backend/database/service.py:91-115 | for one new review, the code as written raises where the corrected code saves the row |
| `Store.CorrectedConstructs` | backend/database/service.py:98-113 | without the four extra keywords the constructor builds the row `SaveReviews` appends |
| `Store.SaveSentimentSnapshot` | backend/database/service.py:156-177 | appends one snapshot with the next id and the call time; a present overall, score or keyword list is copied and a missing one gives "neutral", 0.0 or []; each count is `breakdown.get(label, 0)` of the breakdown (all 0 when it is missing) and the total is the sum of all its values |
| `Store.Lookup` | backend/database/service.py:168-170 | `d.get(k, default)`: the value of the first item with key k, or the default when no item has key k |
| `Store.SumValuesConcat` | backend/database/service.py:171 | `sum(d.values())` splits over any division of the items |
| `Store.TotalIsLabelSum` | backend/database/service.py:168-171 | when the breakdown's keys are distinct labels only, the total equals the sum of the three stored counts |
| `Store.SnapshotOfAnalysis` | backend/database/service.py:163-173 | a snapshot of an analysis copies its label name, score, counts and keywords, and its total is the number of analysed comments |
| `Store.TotalCountsEveryKey` | backend/database/service.py:168-171 | the total sums every breakdown value, also under other keys: {"positive": 1, "mixed": 2} gives total 3 but counts 1, 0, 0 |
| `Store.GetReviewsFacts` | backend/database/service.py:122-134 | only matching reviews, newest first; exactly min(limit, matches) of them; every left-out match is no newer than anything returned; with a negative limit every match |
| `Store.GetReviews` | backend/database/service.py:122-134 | every review returned belongs to the product (and to the platform when one is given), newest first; `Store.GetReviewsFacts` adds how many and which |
| `Store.GetCachedReviews` | backend/database/service.py:136-153 | `None` iff no review of the product and platform was fetched within the window; else exactly those reviews: each returned one is such a review, every such review is returned, and none more often than it is stored |
| `Store.GetSentimentHistory` | backend/database/service.py:179-198 | the same multiset of snapshots as the matches of the window, each as often as stored, newest first |
| `Store.GetLatestSentiment` | backend/database/service.py:200-213 | `None` iff no snapshot matches; else a matching snapshot no older than any other match |
| `Store.LatestMayBePerPlatform` | backend/database/service.py:206-213 | without a platform a per-platform snapshot can be the latest; the combined one is not preferred |

## Left out

- The VADER lexicon and scoring rules: `polarity_scores` is a parameter. Only its compound score is constrained, to [-1, 1].
- Text.Tokens: Python's Unicode `\w` table is a parameter. `str.lower` is modelled on ASCII only, so a non-ASCII character that lowers to an ASCII letter (the Kelvin sign lowers to `k`) is not modelled.
- Numeric.Round: rounds an exact real half to even. Python rounds the binary float, which can differ (`round(2.675, 2)` is 2.67). The sums are exact reals too, so float summation-order effects are not modelled.
- `BaseSource.fetch_reviews` and the per-platform fetchers, `main.py` and the settings are outside this model. The `DEFAULT_REVIEW_COUNT` that `base.py` imports from `config.py` is not defined there; this model does not depend on it.
- Sources.NewSourceResult: no relation between `error` and `reviews` is enforced, because pydantic enforces none.
- Field types beyond the model's: a review dict's `id` that is not a string is given as its `str()` text; a `rating` or `likes` of a foreign type is not modelled.
- Store.SaveSentimentSnapshot: a `breakdown` or `keywords` key holding an explicit `None` (which makes the Python raise `AttributeError` or store `NULL`) is not modelled; each key is either missing or holds a value.
- The SQLAlchemy session (`add`, `commit`, `refresh`, autoflush off), connections and the cascade relationships: the store is an immutable value, and each operation returns the new store.
- `updated_at`'s `onupdate` hook: only the explicit re-stamp in `get_or_create_product` is modelled.
- Store.GetReviews, Store.GetSentimentHistory, Store.GetLatestSentiment: SQL leaves the order of rows with equal timestamps unspecified. The model keeps them in insertion order.
- Store.ProductByName, Store.GetCachedReviews: `.first()` and `.all()` without `ORDER BY` are modelled as insertion order.
- SQL `NULL` comparison: the model compares optional values as values. This agrees with SQL for every comparison the service makes: a `NULL` snapshot platform is only compared with a given platform, and it matches none.
- Clock: `datetime.utcnow()` is the parameter `now`, and time is in whole seconds.

## Findings

| source | as written | input that shows it | evidently intended | confidence | as-written member | corrected member |
|---|---|---|---|---|---|---|
| backend/database/service.py:98-113 | `save_reviews` passes `user_image`, `title`, `app_version` and `url` to the `Review` model, which has no such columns (backend/database/models.py:31-47). SQLAlchemy's declarative constructor raises `TypeError` for an unknown keyword. | any review whose (product, external id, platform) is not yet stored, e.g. `save_reviews(1, "reddit", [{"id": "a", "comment": "ok"}])` on an empty database | build the row from the model's columns only and save every new review | high; not executed | `Store.SaveReviewsAsWritten`, with `Store.AsWrittenNeverSaves` and `Store.AsWrittenRejectsNewReview` | `Store.SaveReviews`, with `Store.CorrectedConstructs` and `Store.SaveTwiceSavesOnce` |
