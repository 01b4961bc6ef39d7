/** The storage rules of backend/database/service.py over an in-memory store:
    three tables kept as sequences in insertion order, row ids handed out as
    SQLite hands out row ids, and the current time passed in as whole
    seconds. */
module Store {
  import opened Wrappers
  import opened Ranking
  import opened Sentiment
  import opened Sources
  import opened Keywords
  import opened Aggregate

  // ---------------------------------------------------------------------------
  // Tables
  // ---------------------------------------------------------------------------

  /** The platform identifiers a product may carry; each column is nullable. */
  datatype SourceIds = SourceIds(
    googlePlay: Option<string>,
    ios: Option<string>,
    youtube: Option<string>,
    productHunt: Option<string>,
    reddit: Option<string>)

  datatype Product = Product(id: int, name: string, ids: SourceIds, createdAt: int, updatedAt: int)

  /** A row of the `reviews` table. */
  datatype StoredReview = StoredReview(
    id: int,
    productId: int,
    externalId: string,
    platform: string,
    user: Option<string>,
    rating: Option<real>,
    comment: Option<string>,
    reviewDate: Option<string>,
    likes: int,
    sentimentScore: real,
    sentimentLabel: string,
    fetchedAt: int)

  /** A row of the `sentiment_snapshots` table; a `None` platform is the
      combined view over all platforms. */
  datatype Snapshot = Snapshot(
    id: int,
    productId: int,
    platform: Option<string>,
    overall: string,
    averageScore: real,
    positive: int,
    negative: int,
    neutral: int,
    total: int,
    keywords: seq<Keyword>,
    createdAt: int)

  datatype Store = Store(products: seq<Product>, reviews: seq<StoredReview>, snapshots: seq<Snapshot>)

  const EmptyStore := Store([], [], [])

  /** Rows are only ever appended, so the row at position `i` has id `i + 1`. */
  ghost predicate Valid(s: Store) {
    && (forall i :: 0 <= i < |s.products| ==> s.products[i].id == i + 1)
    && (forall i :: 0 <= i < |s.reviews| ==> s.reviews[i].id == i + 1)
    && (forall i :: 0 <= i < |s.snapshots| ==> s.snapshots[i].id == i + 1)
  }

  // ---------------------------------------------------------------------------
  // Products
  // ---------------------------------------------------------------------------

  /** Position of the first product called `name`, or `|ps|` if none is. */
  function ProductIndex(ps: seq<Product>, name: string): (i: nat)
    ensures i <= |ps|
    ensures i < |ps| ==> ps[i].name == name
    ensures forall j :: 0 <= j < i ==> ps[j].name != name
  {
    if |ps| == 0 then 0 else if ps[0].name == name then 0 else 1 + ProductIndex(ps[1..], name)
  }

  /** `get_product_by_name`: the first product with that name, if any. */
  function ProductByName(s: Store, name: string): (r: Option<Product>)
    ensures r.None? <==> forall p :: p in s.products ==> p.name != name
    ensures r.Some? ==> r.value in s.products && r.value.name == name
  {
    var i := ProductIndex(s.products, name);
    if i < |s.products| then Some(s.products[i]) else None
  }

  /** One id column under the merge: set from the argument only when the
      argument is truthy and the stored value is not. */
  function FillId(stored: Option<string>, given: Option<string>): Option<string> {
    if Truthy(given) && !Truthy(stored) then given else stored
  }

  /** Whether the merge fills at least one column. */
  predicate Fills(stored: SourceIds, given: SourceIds) {
    || (Truthy(given.googlePlay) && !Truthy(stored.googlePlay))
    || (Truthy(given.ios) && !Truthy(stored.ios))
    || (Truthy(given.youtube) && !Truthy(stored.youtube))
    || (Truthy(given.productHunt) && !Truthy(stored.productHunt))
    || (Truthy(given.reddit) && !Truthy(stored.reddit))
  }

  function Merge(stored: SourceIds, given: SourceIds): SourceIds {
    SourceIds(FillId(stored.googlePlay, given.googlePlay), FillId(stored.ios, given.ios),
              FillId(stored.youtube, given.youtube), FillId(stored.productHunt, given.productHunt),
              FillId(stored.reddit, given.reddit))
  }

  /** `get_or_create_product`: a new product carrying the given ids when no
      product has the name; otherwise the first one with the name, its unset
      ids filled from the truthy arguments, and its `updated_at` moved to now
      only if something was filled. */
  function GetOrCreateProduct(s: Store, name: string, given: SourceIds, now: int): (r: (Store, Product))
    ensures r.1.name == name
    ensures r.0.reviews == s.reviews && r.0.snapshots == s.snapshots
    ensures ProductByName(s, name).None? ==>
              && r.0.products == s.products + [r.1]
              && r.1 == Product(|s.products| + 1, name, given, now, now)
    ensures ProductByName(s, name).Some? ==>
              var prev := ProductByName(s, name).value;
              && |r.0.products| == |s.products|
              && r.1.id == prev.id && r.1.createdAt == prev.createdAt
              && r.1.ids == Merge(prev.ids, given)
              && r.1.updatedAt == (if Fills(prev.ids, given) then now else prev.updatedAt)
              && r.1 in r.0.products
              && forall q :: q in s.products && q != prev ==> q in r.0.products
  {
    var i := ProductIndex(s.products, name);
    if i == |s.products| then
      var p := Product(|s.products| + 1, name, given, now, now);
      (s.(products := s.products + [p]), p)
    else
      var prev := s.products[i];
      if Fills(prev.ids, given) then
        var p := prev.(ids := Merge(prev.ids, given), updatedAt := now);
        var ps := s.products[i := p];
        assert ps[i] == p;
        assert forall q :: q in s.products && q != prev ==> q in ps by {
          forall q | q in s.products && q != prev ensures q in ps {
            var j :| 0 <= j < |s.products| && s.products[j] == q;
            assert ps[j] == q;
          }
        }
        (s.(products := ps), p)
      else
        (s, prev)
  }

  /** The merge never overwrites a set id, always ends with every truthy
      argument's column set, and takes each column either from the store or
      from the argument. */
  lemma MergeKeepsSetIds(stored: SourceIds, given: SourceIds)
    ensures var m := Merge(stored, given);
            && (Truthy(stored.googlePlay) ==> m.googlePlay == stored.googlePlay)
            && (Truthy(stored.ios) ==> m.ios == stored.ios)
            && (Truthy(stored.youtube) ==> m.youtube == stored.youtube)
            && (Truthy(stored.productHunt) ==> m.productHunt == stored.productHunt)
            && (Truthy(stored.reddit) ==> m.reddit == stored.reddit)
            && (Truthy(given.googlePlay) ==> Truthy(m.googlePlay))
            && (Truthy(given.ios) ==> Truthy(m.ios))
            && (Truthy(given.youtube) ==> Truthy(m.youtube))
            && (Truthy(given.productHunt) ==> Truthy(m.productHunt))
            && (Truthy(given.reddit) ==> Truthy(m.reddit))
            && (m.googlePlay == stored.googlePlay || m.googlePlay == given.googlePlay)
            && (m.ios == stored.ios || m.ios == given.ios)
            && (m.youtube == stored.youtube || m.youtube == given.youtube)
            && (m.productHunt == stored.productHunt || m.productHunt == given.productHunt)
            && (m.reddit == stored.reddit || m.reddit == given.reddit)
  {
  }

  /** `updated` is raised exactly when the merge changes something. */
  lemma FillsIffChanged(stored: SourceIds, given: SourceIds)
    ensures Fills(stored, given) <==> Merge(stored, given) != stored
  {
  }

  /** Merging the same arguments again fills nothing. */
  lemma MergeIdempotent(stored: SourceIds, given: SourceIds)
    ensures !Fills(Merge(stored, given), given)
    ensures Merge(Merge(stored, given), given) == Merge(stored, given)
  {
  }

  /** Asking again with the same arguments returns the same product and
      changes nothing, whenever it is asked. */
  lemma GetOrCreateIdempotent(s: Store, name: string, given: SourceIds, t1: int, t2: int)
    ensures var (s1, p1) := GetOrCreateProduct(s, name, given, t1);
            GetOrCreateProduct(s1, name, given, t2) == (s1, p1)
  {
    var (s1, p1) := GetOrCreateProduct(s, name, given, t1);
    var i := ProductIndex(s.products, name);
    MergeIdempotent(if i < |s.products| then s.products[i].ids else given, given);
    if i == |s.products| {
      assert ProductIndex(s1.products, name) == i by {
        ProductIndexAppend(s.products, p1, name);
      }
    } else {
      assert ProductIndex(s1.products, name) == i by {
        ProductIndexUpdate(s.products, i, p1, name);
      }
    }
  }

  lemma {:induction false} ProductIndexAppend(ps: seq<Product>, p: Product, name: string)
    requires ProductIndex(ps, name) == |ps| && p.name == name
    ensures ProductIndex(ps + [p], name) == |ps|
  {
    if |ps| > 0 {
      assert (ps + [p])[1..] == ps[1..] + [p];
      ProductIndexAppend(ps[1..], p, name);
    }
  }

  lemma {:induction false} ProductIndexUpdate(ps: seq<Product>, i: nat, p: Product, name: string)
    requires ProductIndex(ps, name) == i < |ps| && p.name == name
    ensures ProductIndex(ps[i := p], name) == i
  {
    if i > 0 {
      assert ps[i := p][1..] == ps[1..][i - 1 := p];
      ProductIndexUpdate(ps[1..], i - 1, p, name);
    }
  }

  /** Row ids stay in step with positions. */
  lemma GetOrCreateKeepsValid(s: Store, name: string, given: SourceIds, now: int)
    requires Valid(s)
    ensures Valid(GetOrCreateProduct(s, name, given, now).0)
  {
  }

  // ---------------------------------------------------------------------------
  // Reviews
  // ---------------------------------------------------------------------------

  /** `str(r.get("id", ""))`: a missing id is `""`, a `None` id is `"None"`. */
  function ExternalId(d: ReviewData): string {
    match d.id
    case Absent => ""
    case Null => "None"
    case Value(v) => v
  }

  /** Whether a review with this key was stored before the call. */
  predicate AlreadyStored(rs: seq<StoredReview>, productId: int, externalId: string, platform: string) {
    exists i :: 0 <= i < |rs| && rs[i].productId == productId && rs[i].externalId == externalId
                              && rs[i].platform == platform
  }

  /** The score a stored review gets: that of its comment, neutral for a
      missing or `None` comment. */
  function CommentScore(e: Engine, comment: Option<string>): Polarity {
    Compound(e, comment.GetOr(""))
  }

  /** The stored like count: the column has default 0, and the ORM leaves a
      `None` attribute out of the insert when its column has a default, so a
      missing or `None` count is stored as 0. */
  function StoredLikes(likes: Field<int>): int {
    match likes
    case Value(v) => v
    case _ => 0
  }

  /** The row built for one input dict. */
  function ToStored(e: Engine, d: ReviewData, id: int, productId: int, platform: string, now: int): (r: StoredReview)
    ensures r.sentimentLabel == LabelOf(r.sentimentScore).Name()
  {
    var comment := d.comment.Get("");
    var score := CommentScore(e, comment);
    StoredReview(id, productId, ExternalId(d), platform, d.user.Get("Anonymous"), d.rating.GetOpt(),
                 comment, d.date.Get(""), StoredLikes(d.likes), score, LabelOf(score).Name(), now)
  }

  /** The input dicts whose key is not yet stored, in input order. */
  function Fresh(rs: seq<StoredReview>, productId: int, platform: string, data: seq<ReviewData>): seq<ReviewData> {
    Filter(data, (d: ReviewData) => !AlreadyStored(rs, productId, ExternalId(d), platform))
  }

  /** How `Fresh` walks the batch. */
  lemma FreshStep(rs: seq<StoredReview>, productId: int, platform: string, data: seq<ReviewData>)
    requires |data| > 0
    ensures Fresh(rs, productId, platform, data)
            == (if AlreadyStored(rs, productId, ExternalId(data[0]), platform) then [] else [data[0]])
               + Fresh(rs, productId, platform, data[1..])
  {
  }

  lemma {:induction false} FreshNone(rs: seq<StoredReview>, productId: int, platform: string, data: seq<ReviewData>)
    requires forall i :: 0 <= i < |data| ==> AlreadyStored(rs, productId, ExternalId(data[i]), platform)
    ensures Fresh(rs, productId, platform, data) == []
  {
    if |data| > 0 {
      FreshStep(rs, productId, platform, data);
      assert AlreadyStored(rs, productId, ExternalId(data[0]), platform);
      FreshNone(rs, productId, platform, data[1..]);
    }
  }

  /** The rows added for `data`: keys are checked against the rows stored
      before the call only (the session does not flush pending rows before
      querying), so two inputs with the same key are both added. */
  function NewRows(e: Engine, rs: seq<StoredReview>, productId: int, platform: string,
                   data: seq<ReviewData>, nextId: int, now: int): (r: seq<StoredReview>)
    ensures |r| == |Fresh(rs, productId, platform, data)|
    ensures forall i :: 0 <= i < |r| ==>
              r[i] == ToStored(e, Fresh(rs, productId, platform, data)[i], nextId + i, productId, platform, now)
  {
    if |data| == 0 then []
    else
      var d := data[0];
      FreshStep(rs, productId, platform, data);
      if AlreadyStored(rs, productId, ExternalId(d), platform) then
        NewRows(e, rs, productId, platform, data[1..], nextId, now)
      else
        var rest := NewRows(e, rs, productId, platform, data[1..], nextId + 1, now);
        var row := ToStored(e, d, nextId, productId, platform, now);
        NewRowsCons(e, rs, productId, platform, data, nextId, now, row, rest);
        [row] + rest
  }

  lemma NewRowsCons(e: Engine, rs: seq<StoredReview>, productId: int, platform: string,
                    data: seq<ReviewData>, nextId: int, now: int, row: StoredReview, rest: seq<StoredReview>)
    requires |data| > 0
    requires Fresh(rs, productId, platform, data) == [data[0]] + Fresh(rs, productId, platform, data[1..])
    requires row == ToStored(e, data[0], nextId, productId, platform, now)
    requires |rest| == |Fresh(rs, productId, platform, data[1..])|
    requires forall i :: 0 <= i < |rest| ==>
               rest[i] == ToStored(e, Fresh(rs, productId, platform, data[1..])[i], nextId + 1 + i, productId, platform, now)
    ensures |[row] + rest| == |Fresh(rs, productId, platform, data)|
    ensures forall i :: 0 <= i < |[row] + rest| ==>
              ([row] + rest)[i] == ToStored(e, Fresh(rs, productId, platform, data)[i], nextId + i, productId, platform, now)
  {
    var f := Fresh(rs, productId, platform, data);
    var f1 := Fresh(rs, productId, platform, data[1..]);
    forall i | 0 <= i < |[row] + rest|
      ensures ([row] + rest)[i] == ToStored(e, f[i], nextId + i, productId, platform, now)
    {
      if i > 0 {
        assert f[i] == f1[i - 1];
        assert ([row] + rest)[i] == rest[i - 1];
      }
    }
  }

  /** `save_reviews`, with the row built only from columns the `reviews` table
      has: every input whose key was not stored before the call becomes a new
      row, scored and labelled from its comment; the new rows are returned in
      input order and appended to the table. */
  function SaveReviews(s: Store, e: Engine, productId: int, platform: string,
                       data: seq<ReviewData>, now: int): (r: (Store, seq<StoredReview>))
    ensures r.0 == s.(reviews := s.reviews + r.1)
    ensures |r.1| == |Fresh(s.reviews, productId, platform, data)|
    ensures forall i :: 0 <= i < |r.1| ==>
              r.1[i].id == |s.reviews| + i + 1 && r.1[i].fetchedAt == now
              && r.1[i].productId == productId && r.1[i].platform == platform
    ensures forall i :: 0 <= i < |r.1| ==>
              r.1[i].sentimentLabel == LabelOf(r.1[i].sentimentScore).Name()
    ensures forall i :: 0 <= i < |r.1| ==>
              var d := Fresh(s.reviews, productId, platform, data)[i];
              && r.1[i].externalId == ExternalId(d)
              && r.1[i].comment == d.comment.Get("")
              && r.1[i].sentimentScore == CommentScore(e, d.comment.Get(""))
              && r.1[i].user == d.user.Get("Anonymous")
              && r.1[i].rating == d.rating.GetOpt()
              && r.1[i].reviewDate == d.date.Get("")
              && r.1[i].likes == (if d.likes.Value? then d.likes.value else 0)
  {
    var rows := NewRows(e, s.reviews, productId, platform, data, |s.reviews| + 1, now);
    (s.(reviews := s.reviews + rows), rows)
  }

  /** An input whose key is already stored is skipped. */
  lemma SkipsStored(s: Store, e: Engine, productId: int, platform: string, data: seq<ReviewData>, now: int)
    requires forall d :: d in data ==> AlreadyStored(s.reviews, productId, ExternalId(d), platform)
    ensures SaveReviews(s, e, productId, platform, data, now) == (s, [])
  {
    assert forall i :: 0 <= i < |data| ==> data[i] in data;
    FreshNone(s.reviews, productId, platform, data);
    assert s.reviews + [] == s.reviews;
  }

  /** Saving the same batch a second time saves nothing. */
  lemma SaveTwiceSavesOnce(s: Store, e: Engine, productId: int, platform: string,
                           data: seq<ReviewData>, t1: int, t2: int)
    ensures var (s1, _) := SaveReviews(s, e, productId, platform, data, t1);
            SaveReviews(s1, e, productId, platform, data, t2) == (s1, [])
  {
    var (s1, saved) := SaveReviews(s, e, productId, platform, data, t1);
    var f := Fresh(s.reviews, productId, platform, data);
    forall d | d in data
      ensures AlreadyStored(s1.reviews, productId, ExternalId(d), platform)
    {
      if AlreadyStored(s.reviews, productId, ExternalId(d), platform) {
        var i :| 0 <= i < |s.reviews| && s.reviews[i].productId == productId
                 && s.reviews[i].externalId == ExternalId(d) && s.reviews[i].platform == platform;
        assert s1.reviews[i] == s.reviews[i];
      } else {
        var k :| 0 <= k < |data| && data[k] == d;
        assert d in f;
        var j :| 0 <= j < |f| && f[j] == d;
        assert s1.reviews[|s.reviews| + j] == saved[j];
      }
    }
    SkipsStored(s1, e, productId, platform, data, t2);
  }

  /** Two inputs with the same new key in one batch are both saved. */
  lemma BatchDuplicatesBothSaved(s: Store, e: Engine, productId: int, platform: string, d: ReviewData, now: int)
    requires !AlreadyStored(s.reviews, productId, ExternalId(d), platform)
    ensures |SaveReviews(s, e, productId, platform, [d, d], now).1| == 2
  {
    var f := Fresh(s.reviews, productId, platform, [d, d]);
    assert [d, d][1..] == [d];
    assert [d][1..] == [];
  }

  /** Row ids stay in step with positions. */
  lemma SaveReviewsKeepsValid(s: Store, e: Engine, productId: int, platform: string,
                              data: seq<ReviewData>, now: int)
    requires Valid(s)
    ensures Valid(SaveReviews(s, e, productId, platform, data, now).0)
  {
    var r := SaveReviews(s, e, productId, platform, data, now);
    AppendKeepsIds(s.reviews, r.1);
  }

  lemma AppendKeepsIds(rs: seq<StoredReview>, added: seq<StoredReview>)
    requires forall i :: 0 <= i < |rs| ==> rs[i].id == i + 1
    requires forall i :: 0 <= i < |added| ==> added[i].id == |rs| + i + 1
    ensures forall i :: 0 <= i < |rs + added| ==> (rs + added)[i].id == i + 1
  {
  }

  /** A review dumped from a fetch keeps its id, user, rating, date and
      comment; an unknown like count is stored as 0. */
  lemma FetchedReviewStored(e: Engine, r: Review, id: int, productId: int, platform: string, now: int)
    ensures var row := ToStored(e, ToData(r), id, productId, platform, now);
            && row.externalId == r.id && row.user == Some(r.user)
            && row.rating == r.rating && row.likes == r.likes.GetOr(0)
            && row.reviewDate == Some(r.date)
            && row.comment == Some(r.comment)
            && row.sentimentScore == Compound(e, r.comment)
  {
    match r.rating
    case Some(_) =>
    case None =>
  }

  // ---------------------------------------------------------------------------
  // save_reviews as written
  // ---------------------------------------------------------------------------

  /** What a constructor call ends in: the value, or the exception raised. */
  datatype Outcome<T> = Done(value: T) | Raised(error: string)

  /** The attributes of the `Review` model that a keyword can sensibly name:
      its columns and its `product` relationship. The constructor also accepts
      the class's other attributes (`metadata`, `registry`, `__table__`, ...);
      none of them is ever passed here. */
  const ReviewAttributes: set<string> := {
    "id", "product_id", "external_id", "platform", "user", "rating", "comment",
    "review_date", "likes", "sentiment_score", "sentiment_label", "fetched_at", "product"
  }

  /** The keyword arguments `save_reviews` passes to `Review(...)`, in order. */
  const SaveKeywords: seq<string> := [
    "product_id", "external_id", "platform", "user", "user_image", "rating", "comment",
    "title", "review_date", "likes", "app_version", "url", "sentiment_score", "sentiment_label"
  ]

  /** The first keyword that is not an attribute of the model. */
  function FirstUnknown(keys: seq<string>, attrs: set<string>): (r: Option<string>)
    ensures r.None? <==> forall k :: k in keys ==> k in attrs
    ensures r.Some? ==> r.value in keys && r.value !in attrs
  {
    if |keys| == 0 then None
    else if keys[0] !in attrs then Some(keys[0])
    else FirstUnknown(keys[1..], attrs)
  }

  /** The message of the `TypeError` for an unknown keyword. */
  function InvalidKeyword(k: string): string {
    "TypeError: '" + k + "' is an invalid keyword argument for Review"
  }

  /** The declarative constructor, for the keywords this project passes:
      each must name a column or the relationship, else `TypeError` naming
      the first one that does not. */
  function Construct(keys: seq<string>, row: StoredReview): (r: Outcome<StoredReview>)
    ensures r.Done? <==> forall k :: k in keys ==> k in ReviewAttributes
  {
    match FirstUnknown(keys, ReviewAttributes)
    case None => Done(row)
    case Some(k) => Raised(InvalidKeyword(k))
  }

  /** `save_reviews` as written: the first input whose key is not stored
      reaches the constructor, which raises before anything is added. */
  function SaveReviewsAsWritten(s: Store, e: Engine, productId: int, platform: string,
                                data: seq<ReviewData>, now: int): Outcome<(Store, seq<StoredReview>)>
  {
    if |data| == 0 then Done((s, []))
    else if AlreadyStored(s.reviews, productId, ExternalId(data[0]), platform) then
      SaveReviewsAsWritten(s, e, productId, platform, data[1..], now)
    else
      match Construct(SaveKeywords, ToStored(e, data[0], |s.reviews| + 1, productId, platform, now))
      case Raised(msg) => Raised(msg)
      case Done(_) => SaveReviewsAsWritten(s, e, productId, platform, data[1..], now)
  }

  /** The message the constructor raises with for the keywords passed. */
  const UserImageError := InvalidKeyword("user_image")

  /** Whatever the row, the constructor rejects the keywords as passed, at
      `user_image`, the first one the model lacks. */
  lemma ConstructRejectsSaveKeywords(row: StoredReview)
    ensures Construct(SaveKeywords, row) == Raised(UserImageError)
  {
    var ks, a := SaveKeywords, ReviewAttributes;
    assert "user_image" !in a;
    assert FirstUnknown(ks[4..], a) == Some("user_image");
    assert FirstUnknown(ks[3..], a) == FirstUnknown(ks[4..], a) by { assert ks[3..][1..] == ks[4..]; }
    assert FirstUnknown(ks[2..], a) == FirstUnknown(ks[3..], a) by { assert ks[2..][1..] == ks[3..]; }
    assert FirstUnknown(ks[1..], a) == FirstUnknown(ks[2..], a) by { assert ks[1..][1..] == ks[2..]; }
    assert FirstUnknown(ks, a) == FirstUnknown(ks[1..], a);
  }

  /** As written, `save_reviews` never saves anything: it raises as soon as
      one input is new, and otherwise returns nothing. */
  lemma {:induction false} AsWrittenNeverSaves(s: Store, e: Engine, productId: int, platform: string,
                                               data: seq<ReviewData>, now: int)
    ensures var r := SaveReviewsAsWritten(s, e, productId, platform, data, now);
            && (r.Raised? <==> |Fresh(s.reviews, productId, platform, data)| > 0)
            && (r.Done? ==> r.value == (s, []))
            && (r.Raised? ==> r.error == UserImageError)
  {
    if |data| > 0 {
      FreshStep(s.reviews, productId, platform, data);
      ConstructRejectsSaveKeywords(ToStored(e, data[0], |s.reviews| + 1, productId, platform, now));
      AsWrittenNeverSaves(s, e, productId, platform, data[1..], now);
    }
  }

  /** The keyword arguments with the four the model lacks removed. */
  const CorrectedKeywords: seq<string> := [
    "product_id", "external_id", "platform", "user", "rating", "comment",
    "review_date", "likes", "sentiment_score", "sentiment_label"
  ]

  /** The corrected call names only attributes, so the constructor builds the
      row `SaveReviews` appends. */
  lemma CorrectedConstructs(e: Engine, d: ReviewData, id: int, productId: int, platform: string, now: int)
    ensures Construct(CorrectedKeywords, ToStored(e, d, id, productId, platform, now))
            == Done(ToStored(e, d, id, productId, platform, now))
    ensures forall k :: k in CorrectedKeywords ==> k in SaveKeywords
  {
  }

  /** A new review: the code as written raises where the corrected one saves
      the row. */
  lemma AsWrittenRejectsNewReview(s: Store, e: Engine, productId: int, platform: string, d: ReviewData, now: int)
    requires !AlreadyStored(s.reviews, productId, ExternalId(d), platform)
    ensures SaveReviewsAsWritten(s, e, productId, platform, [d], now).Raised?
    ensures SaveReviews(s, e, productId, platform, [d], now).1
            == [ToStored(e, d, |s.reviews| + 1, productId, platform, now)]
  {
    AsWrittenNeverSaves(s, e, productId, platform, [d], now);
    var f := Fresh(s.reviews, productId, platform, [d]);
    assert [d][1..] == [];
    assert f == [d];
  }

  // ---------------------------------------------------------------------------
  // Snapshots
  // ---------------------------------------------------------------------------

  /** The `sentiment_data` dict: each key may be missing.  The breakdown is a
      dict, kept as its (key, count) items. */
  datatype SentimentData = SentimentData(
    overall: Option<string>,
    averageScore: Option<real>,
    breakdown: Option<seq<(string, int)>>,
    keywords: Option<seq<Keyword>>)

  /** `d.get(k, default)` on the breakdown's items. */
  function Lookup(items: seq<(string, int)>, k: string, default: int): (v: int)
    ensures (forall i :: 0 <= i < |items| ==> items[i].0 != k) ==> v == default
    ensures forall i :: 0 <= i < |items| && items[i].0 == k ==>
                          (forall j :: 0 <= j < i ==> items[j].0 != k) ==> v == items[i].1
  {
    if |items| == 0 then default
    else if items[0].0 == k then items[0].1
    else
      assert forall i :: 1 <= i < |items| ==> items[1..][i - 1] == items[i];
      Lookup(items[1..], k, default)
  }

  /** `sum(d.values())`. */
  function SumValues(items: seq<(string, int)>): int {
    if |items| == 0 then 0 else items[0].1 + SumValues(items[1..])
  }

  /** The sum of a dict's values splits over its items. */
  lemma {:induction false} SumValuesConcat(a: seq<(string, int)>, b: seq<(string, int)>)
    ensures SumValues(a + b) == SumValues(a) + SumValues(b)
  {
    if |a| == 0 {
      assert a + b == b;
    } else {
      assert (a + b)[0] == a[0] && (a + b)[1..] == a[1..] + b;
      SumValuesConcat(a[1..], b);
    }
  }

  /** The three sentiment labels, the keys `analyze_reviews` writes. */
  predicate IsLabelKey(k: string) {
    k == "positive" || k == "negative" || k == "neutral"
  }

  /** The keys of the items are pairwise distinct, as in a dict. */
  predicate DistinctKeys(items: seq<(string, int)>) {
    forall i, j :: 0 <= i < j < |items| ==> items[i].0 != items[j].0
  }

  /** When a breakdown holds nothing but the three labels, the total is the
      sum of the three counts the snapshot stores. */
  lemma {:induction false} TotalIsLabelSum(items: seq<(string, int)>)
    requires DistinctKeys(items)
    requires forall i :: 0 <= i < |items| ==> IsLabelKey(items[i].0)
    ensures SumValues(items)
            == Lookup(items, "positive", 0) + Lookup(items, "negative", 0) + Lookup(items, "neutral", 0)
  {
    if |items| > 0 {
      var rest := items[1..];
      assert DistinctKeys(rest) by {
        forall i, j | 0 <= i < j < |rest| ensures rest[i].0 != rest[j].0 {
          assert rest[i] == items[i + 1] && rest[j] == items[j + 1];
        }
      }
      TotalIsLabelSum(rest);
      var k := items[0].0;
      assert forall i :: 0 <= i < |rest| ==> rest[i].0 != k by {
        forall i | 0 <= i < |rest| ensures rest[i].0 != k {
          assert rest[i] == items[i + 1];
        }
      }
    }
  }

  /** `save_sentiment_snapshot`: fields read with their defaults (`"neutral"`,
      0.0, an empty breakdown, no keywords), and the total is the sum of every
      value in the breakdown. */
  function SaveSentimentSnapshot(s: Store, productId: int, platform: Option<string>,
                                 data: SentimentData, now: int): (r: (Store, Snapshot))
    ensures r.0 == s.(snapshots := s.snapshots + [r.1])
    ensures r.1.id == |s.snapshots| + 1 && r.1.productId == productId && r.1.platform == platform
    ensures r.1.createdAt == now
    ensures data.overall.None? ==> r.1.overall == "neutral"
    ensures data.overall.Some? ==> r.1.overall == data.overall.value
    ensures data.averageScore.None? ==> r.1.averageScore == 0.0
    ensures data.averageScore.Some? ==> r.1.averageScore == data.averageScore.value
    ensures data.keywords.None? ==> r.1.keywords == []
    ensures data.keywords.Some? ==> r.1.keywords == data.keywords.value
    ensures data.breakdown.None? ==>
              r.1.positive == 0 && r.1.negative == 0 && r.1.neutral == 0 && r.1.total == 0
    ensures var items := data.breakdown.GetOr([]);
            && r.1.positive == Lookup(items, "positive", 0)
            && r.1.negative == Lookup(items, "negative", 0)
            && r.1.neutral == Lookup(items, "neutral", 0)
            && r.1.total == SumValues(items)
  {
    var items := data.breakdown.GetOr([]);
    var snap := Snapshot(|s.snapshots| + 1, productId, platform, data.overall.GetOr("neutral"),
                         data.averageScore.GetOr(0.0),
                         Lookup(items, "positive", 0), Lookup(items, "negative", 0),
                         Lookup(items, "neutral", 0), SumValues(items),
                         data.keywords.GetOr([]), now);
    (s.(snapshots := s.snapshots + [snap]), snap)
  }

  /** The dict `analyze_reviews` returns, as the snapshot reads it. */
  function SummaryData(sum: Summary): SentimentData {
    SentimentData(Some(sum.overall.Name()), Some(sum.averageScore),
                  Some([("positive", sum.breakdown.positive), ("negative", sum.breakdown.negative),
                        ("neutral", sum.breakdown.neutral)]),
                  Some(sum.keywords))
  }

  lemma LookupLabels(p: int, n: int, u: int)
    ensures var items := [("positive", p), ("negative", n), ("neutral", u)];
            && Lookup(items, "positive", 0) == p
            && Lookup(items, "negative", 0) == n
            && Lookup(items, "neutral", 0) == u
            && SumValues(items) == p + n + u
  {
    var items := [("positive", p), ("negative", n), ("neutral", u)];
    var tail := [("negative", n), ("neutral", u)];
    var last := [("neutral", u)];
    assert items[1..] == tail && tail[1..] == last && last[1..] == [];
    assert "positive" != "negative" && "positive" != "neutral" && "negative" != "neutral";
    assert Lookup(items, "neutral", 0) == Lookup(tail, "neutral", 0) == Lookup(last, "neutral", 0);
    assert SumValues(items) == p + SumValues(tail) == p + n + SumValues(last);
  }

  /** A snapshot of an analysis copies its label, score, counts and keywords,
      and its total is the number of analysed comments. */
  lemma SnapshotOfAnalysis(s: Store, productId: int, platform: Option<string>,
                           e: Engine, reviews: seq<ReviewData>, now: int)
    ensures var sum := AnalyzeReviews(e, reviews);
            var snap := SaveSentimentSnapshot(s, productId, platform, SummaryData(sum), now).1;
            && snap.overall == sum.overall.Name()
            && snap.averageScore == sum.averageScore
            && snap.positive == sum.breakdown.positive
            && snap.negative == sum.breakdown.negative
            && snap.neutral == sum.breakdown.neutral
            && snap.keywords == sum.keywords
            && snap.total == |Comments(reviews)|
  {
    var sum := AnalyzeReviews(e, reviews);
    LookupLabels(sum.breakdown.positive, sum.breakdown.negative, sum.breakdown.neutral);
  }

  /** Every value counts towards the total, also under keys other than the
      three labels: `{"positive": 1, "mixed": 2}` gives a total of 3 with
      counts 1, 0 and 0. */
  lemma TotalCountsEveryKey(s: Store, productId: int, now: int)
    ensures var data := SentimentData(None, None, Some([("positive", 1), ("mixed", 2)]), None);
            var snap := SaveSentimentSnapshot(s, productId, None, data, now).1;
            snap.total == 3 && snap.positive + snap.negative + snap.neutral == 1
  {
  }

  // ---------------------------------------------------------------------------
  // Reads
  // ---------------------------------------------------------------------------

  function FetchedAt(r: StoredReview): int { r.fetchedAt }

  function CreatedAt(s: Snapshot): int { s.createdAt }

  /** The filter of `get_reviews`: the product, and the platform only when the
      argument is truthy (so `""` does not filter). */
  predicate ReviewMatches(r: StoredReview, productId: int, platform: Option<string>) {
    r.productId == productId && (!Truthy(platform) || r.platform == platform.value)
  }

  /** `get_reviews`: the matching reviews newest first, at most `limit` of
      them; SQLite reads a negative limit as no limit. */
  function GetReviews(s: Store, productId: int, platform: Option<string>, limit: int)
    : (r: seq<StoredReview>)
    ensures forall x :: x in r ==> x in s.reviews && ReviewMatches(x, productId, platform)
    ensures NonIncreasing(r, FetchedAt)
  {
    var matching := Filter(s.reviews, (r: StoredReview) => ReviewMatches(r, productId, platform));
    var r := if limit < 0 then SortDesc(matching, FetchedAt) else MostCommon(matching, FetchedAt, limit);
    SubMembers(r, matching);
    r
  }

  /** What `get_reviews` returns: only matching reviews of the store, newest
      first, no more than a non-negative limit, and nothing left out that is
      newer than something returned; with a negative limit, every match. */
  lemma GetReviewsFacts(s: Store, productId: int, platform: Option<string>, limit: int)
    ensures var r := GetReviews(s, productId, platform, limit);
            var matching := Filter(s.reviews, (x: StoredReview) => ReviewMatches(x, productId, platform));
            && (forall x :: x in r ==> x in s.reviews && ReviewMatches(x, productId, platform))
            && NonIncreasing(r, FetchedAt)
            && multiset(r) <= multiset(matching)
            && (limit >= 0 ==> |r| == if limit < |matching| then limit else |matching|)
            && (limit < 0 ==> multiset(r) == multiset(matching))
            && (forall x :: x in multiset(matching) - multiset(r) ==>
                  forall y :: y in r ==> y.fetchedAt >= x.fetchedAt)
  {
    var matching := Filter(s.reviews, (x: StoredReview) => ReviewMatches(x, productId, platform));
    var r := GetReviews(s, productId, platform, limit);
    if limit >= 0 {
      MostCommonIsTop(matching, FetchedAt, limit);
    }
    forall x | x in r ensures x in s.reviews && ReviewMatches(x, productId, platform) {
      assert x in multiset(matching);
      var i :| 0 <= i < |matching| && matching[i] == x;
    }
  }

  /** `get_cached_reviews`: the reviews of the product and platform fetched
      within the last `maxAgeHours` hours, in table order, or `None` when
      there are none. */
  function GetCachedReviews(s: Store, productId: int, platform: string, maxAgeHours: int, now: int)
    : (r: Option<seq<StoredReview>>)
    ensures r.None? <==>
              forall x :: x in s.reviews ==>
                !(x.productId == productId && x.platform == platform && x.fetchedAt >= now - maxAgeHours * 3600)
    ensures r.Some? ==> |r.value| > 0 && forall i :: 0 <= i < |r.value| ==>
              r.value[i] in s.reviews && r.value[i].productId == productId && r.value[i].platform == platform
              && r.value[i].fetchedAt >= now - maxAgeHours * 3600
    ensures r.Some? ==> forall i :: 0 <= i < |s.reviews| ==>
              (s.reviews[i].productId == productId && s.reviews[i].platform == platform
               && s.reviews[i].fetchedAt >= now - maxAgeHours * 3600) ==> s.reviews[i] in r.value
    ensures r.Some? ==> multiset(r.value) <= multiset(s.reviews)
  {
    var cutoff := now - maxAgeHours * 3600;
    var recent := Filter(s.reviews, (x: StoredReview) =>
                          x.productId == productId && x.platform == platform && x.fetchedAt >= cutoff);
    assert recent == [] <==> forall x :: x in s.reviews ==>
             !(x.productId == productId && x.platform == platform && x.fetchedAt >= cutoff) by {
      if recent != [] {
        assert recent[0] in recent;
      }
      forall x | x in s.reviews && x.productId == productId && x.platform == platform && x.fetchedAt >= cutoff
        ensures recent != []
      {
        var i :| 0 <= i < |s.reviews| && s.reviews[i] == x;
      }
    }
    if recent == [] then None else Some(recent)
  }

  /** The filter of the snapshot reads: the product, and the platform only
      when one is given (`is not None`, so `""` selects the rows whose
      platform is `""`). */
  predicate SnapshotMatches(x: Snapshot, productId: int, platform: Option<string>) {
    x.productId == productId && (platform.None? || x.platform == platform)
  }

  predicate InWindow(x: Snapshot, productId: int, platform: Option<string>, cutoff: int) {
    SnapshotMatches(x, productId, platform) && x.createdAt >= cutoff
  }

  /** The history filter as a test on one snapshot. */
  function Window(productId: int, platform: Option<string>, cutoff: int): Snapshot -> bool {
    (x: Snapshot) => InWindow(x, productId, platform, cutoff)
  }

  /** `get_sentiment_history`: the matching snapshots of the last `days`
      days, newest first. */
  function GetSentimentHistory(s: Store, productId: int, platform: Option<string>, days: int, now: int)
    : (r: seq<Snapshot>)
    ensures NonIncreasing(r, CreatedAt)
    ensures forall x :: x in r ==> x in s.snapshots && InWindow(x, productId, platform, now - days * 86400)
    ensures forall i :: 0 <= i < |s.snapshots| ==>
              (InWindow(s.snapshots[i], productId, platform, now - days * 86400) ==> s.snapshots[i] in r)
    ensures multiset(r) == multiset(Filter(s.snapshots, Window(productId, platform, now - days * 86400)))
  {
    var matching := Filter(s.snapshots, Window(productId, platform, now - days * 86400));
    var r := SortDesc(matching, CreatedAt);
    SameMembers(r, matching);
    r
  }

  /** Two sequences with the same multiset have the same members. */
  lemma SameMembers<T>(r: seq<T>, xs: seq<T>)
    requires multiset(r) == multiset(xs)
    ensures forall x :: x in r <==> x in xs
  {
    forall x ensures x in r <==> x in xs {
      assert x in r <==> x in multiset(r);
      assert x in xs <==> x in multiset(xs);
    }
  }

  /** `get_latest_sentiment`: the newest matching snapshot, if any. */
  function GetLatestSentiment(s: Store, productId: int, platform: Option<string>): (r: Option<Snapshot>)
    ensures r.None? <==> forall x :: x in s.snapshots ==> !SnapshotMatches(x, productId, platform)
    ensures r.Some? ==> r.value in s.snapshots && SnapshotMatches(r.value, productId, platform)
    ensures r.Some? ==> forall x :: x in s.snapshots && SnapshotMatches(x, productId, platform) ==>
                          x.createdAt <= r.value.createdAt
  {
    var matching := Filter(s.snapshots, (x: Snapshot) => SnapshotMatches(x, productId, platform));
    var sorted := SortDesc(matching, CreatedAt);
    LatestFacts(s.snapshots, matching, sorted, productId, platform);
    if |sorted| == 0 then None else Some(sorted[0])
  }

  lemma LatestFacts(all: seq<Snapshot>, matching: seq<Snapshot>, sorted: seq<Snapshot>,
                    productId: int, platform: Option<string>)
    requires matching == Filter(all, (x: Snapshot) => SnapshotMatches(x, productId, platform))
    requires sorted == SortDesc(matching, CreatedAt)
    ensures |sorted| == 0 <==> forall x :: x in all ==> !SnapshotMatches(x, productId, platform)
    ensures |sorted| > 0 ==> sorted[0] in all && SnapshotMatches(sorted[0], productId, platform)
    ensures |sorted| > 0 ==> forall x :: x in all && SnapshotMatches(x, productId, platform) ==>
                               x.createdAt <= sorted[0].createdAt
  {
    MatchesSorted(all, matching, sorted, productId, platform);
    if |sorted| > 0 {
      assert sorted[0] in multiset(matching);
      assert sorted[0] in matching;
      LatestIsNewest(sorted);
    }
  }

  lemma MatchesSorted(all: seq<Snapshot>, matching: seq<Snapshot>, sorted: seq<Snapshot>,
                      productId: int, platform: Option<string>)
    requires matching == Filter(all, (x: Snapshot) => SnapshotMatches(x, productId, platform))
    requires sorted == SortDesc(matching, CreatedAt)
    ensures forall x :: x in all && SnapshotMatches(x, productId, platform) ==> x in sorted
  {
    assert multiset(sorted) == multiset(matching);
    forall x | x in all && SnapshotMatches(x, productId, platform)
      ensures x in sorted
    {
      var i :| 0 <= i < |all| && all[i] == x;
      assert x in multiset(matching);
    }
  }

  lemma LatestIsNewest(sorted: seq<Snapshot>)
    requires |sorted| > 0 && NonIncreasing(sorted, CreatedAt)
    ensures forall x :: x in sorted ==> x.createdAt <= sorted[0].createdAt
  {
    forall x | x in sorted ensures x.createdAt <= sorted[0].createdAt {
      var j :| 0 <= j < |sorted| && sorted[j] == x;
      if j > 0 {
        assert CreatedAt(sorted[0]) >= CreatedAt(sorted[j]);
      }
    }
  }

  /** Without a platform the latest snapshot may be a per-platform one: the
      combined view is not preferred. */
  lemma LatestMayBePerPlatform()
    ensures var snap := Snapshot(1, 7, Some("reddit"), "positive", 0.5, 1, 0, 0, 1, [], 100);
            GetLatestSentiment(Store([], [], [snap]), 7, None) == Some(snap)
  {
    var snap := Snapshot(1, 7, Some("reddit"), "positive", 0.5, 1, 0, 0, 1, [], 100);
    assert snap in [snap];
  }
}
