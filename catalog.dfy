/** The catalog router: the personalised catalog (cold start or a filtered walk over the
    3k nearest products), the taste vector computed from onboarding likes and dislikes
    with its first recommendations, and the category-spread calibration set. */
module Catalog {
  import opened Embeddings
  import opened Vectors
  import opened Walks

  /** A product with the affinity score the router attaches to it. */
  datatype Scored = Scored(product: Product, affinity: real)

  datatype CatalogResult = CatalogResult(products: seq<Scored>, isColdStart: bool)

  /** The optional filters of the personalised catalog. */
  datatype Filters = Filters(category: Option<string>, priceMin: Option<real>, priceMax: Option<real>)

  const ColdStartAffinity: real := 0.5

  // A filter is on only when its argument is truthy: None, "" and 0 switch it off.
  predicate CategoryOn(f: Filters) { f.category.Some? && f.category.value != "" }
  predicate MinOn(f: Filters) { f.priceMin.Some? && f.priceMin.value != 0.0 }
  predicate MaxOn(f: Filters) { f.priceMax.Some? && f.priceMax.value != 0.0 }

  predicate Passes(p: Product, f: Filters) {
    && (CategoryOn(f) ==> p.category == f.category.value)
    && (MinOn(f) ==> p.price >= f.priceMin.value)
    && (MaxOn(f) ==> p.price <= f.priceMax.value)
  }

  // ---------------------------------------------------------------- cold start

  /** The popular ids from position i on that resolve to a product, each at affinity 0.5. */
  function ColdStartPicks(rows: seq<Row>, ids: seq<string>, i: nat): seq<Pick<Scored>>
    requires i <= |ids|
    decreases |ids| - i
  {
    if i == |ids| then []
    else match GetProduct(rows, ids[i])
      case None => ColdStartPicks(rows, ids, i + 1)
      case Some(p) => [Pick(i, Scored(p, ColdStartAffinity))] + ColdStartPicks(rows, ids, i + 1)
  }

  /** Cold start keeps at most one entry per listed id, in list order, each the
      product of its id at affinity 0.5. */
  lemma {:induction false} ColdStartPicksSound(rows: seq<Row>, ids: seq<string>, i: nat)
    requires i <= |ids|
    ensures var ps := ColdStartPicks(rows, ids, i);
      && |ps| <= |ids| - i
      && InOrder(ps, i, |ids|)
      && (forall j | 0 <= j < |ps| ::
            GetProduct(rows, ids[ps[j].pos]) == Some(ps[j].item.product) && ps[j].item.affinity == ColdStartAffinity)
    decreases |ids| - i
  {
    if i < |ids| {
      ColdStartPicksSound(rows, ids, i + 1);
      var rest := ColdStartPicks(rows, ids, i + 1);
      match GetProduct(rows, ids[i])
      case None =>
        InOrderWeaken(rest, i, |ids|);
      case Some(p) =>
        InOrderCons(Pick(i, Scored(p, ColdStartAffinity)), rest, i, |ids|);
    }
  }

  /** Cold start leaves out no listed id that resolves. */
  lemma {:induction false} ColdStartPicksComplete(rows: seq<Row>, ids: seq<string>, i: nat)
    requires i <= |ids|
    ensures forall p | i <= p < |ids| && GetProduct(rows, ids[p]).Some? :: Picked(ColdStartPicks(rows, ids, i), p)
    decreases |ids| - i
  {
    if i < |ids| {
      ColdStartPicksComplete(rows, ids, i + 1);
      var rest := ColdStartPicks(rows, ids, i + 1);
      match GetProduct(rows, ids[i])
      case None =>
      case Some(p) =>
        assert ([Pick(i, Scored(p, ColdStartAffinity))] + rest)[1..] == rest;
    }
  }

  /** Cold start: the resolvable ids among the first k popular ids. */
  method ColdStart(svc: Service, k: int) returns (products: seq<Scored>)
    ensures products == Items(ColdStartPicks(svc.rows, PyPrefix(svc.popular, k), 0))
    ensures k >= 0 ==> |products| <= k
    ensures forall j | 0 <= j < |products| :: products[j].affinity == ColdStartAffinity
  {
    var ids := PyPrefix(svc.popular, k);
    ghost var picks: seq<Pick<Scored>> := [];
    products := [];
    var i := 0;
    while i < |ids|
      invariant i <= |ids|
      invariant products == Items(picks)
      invariant ColdStartPicks(svc.rows, ids, 0) == picks + ColdStartPicks(svc.rows, ids, i)
    {
      var prod := GetProduct(svc.rows, ids[i]);
      if prod.Some? {
        ItemsAppend(picks, Pick(i, Scored(prod.value, ColdStartAffinity)));
        picks := picks + [Pick(i, Scored(prod.value, ColdStartAffinity))];
        products := products + [Scored(prod.value, ColdStartAffinity)];
      }
      i := i + 1;
    }
    ColdStartPicksSound(svc.rows, ids, 0);
  }

  // ---------------------------------------------------------------- personalised walk

  /** From candidate i on: the products that resolve and pass the filters, scored with
      their search score, stopping after `need` of them. */
  function CatalogPicks(table: seq<Option<Product>>, cands: seq<Candidate>, f: Filters, i: nat, need: nat): seq<Pick<Scored>>
    requires RowsOf(table, cands) && i <= |cands|
    decreases |cands| - i
  {
    if i == |cands| || need == 0 then []
    else match table[cands[i].idx]
      case None => CatalogPicks(table, cands, f, i + 1, need)
      case Some(p) =>
        if Passes(p, f) then [Pick(i, Scored(p, cands[i].score))] + CatalogPicks(table, cands, f, i + 1, need - 1)
        else CatalogPicks(table, cands, f, i + 1, need)
  }

  /** The walk keeps at most `need` candidates, in search order. */
  lemma {:induction false} CatalogPicksInOrder(table: seq<Option<Product>>, cands: seq<Candidate>, f: Filters, i: nat, need: nat)
    requires RowsOf(table, cands) && i <= |cands|
    ensures |CatalogPicks(table, cands, f, i, need)| <= need
    ensures InOrder(CatalogPicks(table, cands, f, i, need), i, |cands|)
    decreases |cands| - i
  {
    if i < |cands| && need > 0 {
      var r := table[cands[i].idx];
      if r.Some? && Passes(r.value, f) {
        CatalogPicksInOrder(table, cands, f, i + 1, need - 1);
        InOrderCons(Pick(i, Scored(r.value, cands[i].score)), CatalogPicks(table, cands, f, i + 1, need - 1), i, |cands|);
      } else {
        CatalogPicksInOrder(table, cands, f, i + 1, need);
        InOrderWeaken(CatalogPicks(table, cands, f, i + 1, need), i, |cands|);
      }
    }
  }

  /** A kept candidate: it resolves to the product kept, which passes the filters, and
      carries its own search score. */
  ghost predicate Kept(table: seq<Option<Product>>, cands: seq<Candidate>, f: Filters, p: Pick<Scored>)
    requires RowsOf(table, cands)
  {
    && p.pos < |cands|
    && table[cands[p.pos].idx] == Some(p.item.product)
    && Passes(p.item.product, f)
    && p.item.affinity == cands[p.pos].score
  }

  /** Each kept candidate is a resolved product that passes the filters, carrying its
      own search score. */
  lemma {:induction false} CatalogPicksPass(table: seq<Option<Product>>, cands: seq<Candidate>, f: Filters, i: nat, need: nat)
    requires RowsOf(table, cands) && i <= |cands|
    ensures forall p | p in CatalogPicks(table, cands, f, i, need) :: Kept(table, cands, f, p)
    decreases |cands| - i
  {
    if i < |cands| && need > 0 {
      var r := table[cands[i].idx];
      if r.Some? && Passes(r.value, f) {
        CatalogPicksPass(table, cands, f, i + 1, need - 1);
        assert Kept(table, cands, f, Pick(i, Scored(r.value, cands[i].score)));
      } else {
        CatalogPicksPass(table, cands, f, i + 1, need);
      }
    }
  }

  /** A walk that ends short of `need` has kept every candidate that passes. */
  lemma {:induction false} CatalogPicksComplete(table: seq<Option<Product>>, cands: seq<Candidate>, f: Filters, i: nat, need: nat)
    requires RowsOf(table, cands) && i <= |cands|
    ensures |CatalogPicks(table, cands, f, i, need)| < need ==>
      forall p | i <= p < |cands| && table[cands[p].idx].Some? && Passes(table[cands[p].idx].value, f) ::
        Picked(CatalogPicks(table, cands, f, i, need), p)
    decreases |cands| - i
  {
    if i < |cands| && need > 0 {
      match table[cands[i].idx]
      case None =>
        CatalogPicksComplete(table, cands, f, i + 1, need);
      case Some(p) =>
        if Passes(p, f) {
          CatalogPicksComplete(table, cands, f, i + 1, need - 1);
          var rest := CatalogPicks(table, cands, f, i + 1, need - 1);
          assert ([Pick(i, Scored(p, cands[i].score))] + rest)[1..] == rest;
        } else {
          CatalogPicksComplete(table, cands, f, i + 1, need);
        }
    }
  }

  /** What the caller of the walk relies on: at most `need` products, each passing the
      filters, with non-increasing affinity when the candidates come best first. */
  lemma CatalogWalkFacts(table: seq<Option<Product>>, cands: seq<Candidate>, f: Filters, need: nat)
    requires RowsOf(table, cands)
    ensures var products := Items(CatalogPicks(table, cands, f, 0, need));
      && |products| <= need
      && (forall j | 0 <= j < |products| :: Passes(products[j].product, f))
      && (SortedByScore(cands) ==>
            forall a, b | 0 <= a < b < |products| :: products[a].affinity >= products[b].affinity)
  {
    var ps := CatalogPicks(table, cands, f, 0, need);
    var products := Items(ps);
    CatalogPicksInOrder(table, cands, f, 0, need);
    CatalogPicksPass(table, cands, f, 0, need);
    forall j | 0 <= j < |products| ensures Passes(products[j].product, f) {
      assert Kept(table, cands, f, ps[j]);
    }
    if SortedByScore(cands) {
      PicksDescend(cands, ps);
      forall a, b | 0 <= a < b < |products| ensures products[a].affinity >= products[b].affinity {
        assert Kept(table, cands, f, ps[a]) && Kept(table, cands, f, ps[b]);
      }
    }
  }

  /** The filter walk over the candidates, stopping once k products are kept. */
  method FilterWalk(svc: Service, cands: seq<Candidate>, f: Filters, k: int) returns (products: seq<Scored>)
    requires RowsOf(ProductTable(svc), cands)
    ensures products == Items(CatalogPicks(ProductTable(svc), cands, f, 0, Cap(k)))
    ensures |products| <= Cap(k)
    ensures forall j | 0 <= j < |products| :: Passes(products[j].product, f)
    ensures SortedByScore(cands) ==>
      forall a, b | 0 <= a < b < |products| :: products[a].affinity >= products[b].affinity
  {
    ghost var table := ProductTable(svc);
    ghost var picks: seq<Pick<Scored>> := [];
    products := [];
    var i := 0;
    while i < |cands|
      invariant i <= |cands|
      invariant |picks| < Cap(k)
      invariant products == Items(picks)
      invariant CatalogPicks(table, cands, f, 0, Cap(k)) == picks + CatalogPicks(table, cands, f, i, Cap(k) - |picks|)
    {
      var c := cands[i];
      var prod := ProductAt(svc, c.idx);
      if prod.None? {
        i := i + 1;
        continue;
      }
      var p := prod.value;
      if CategoryOn(f) && p.category != f.category.value {
        i := i + 1;
        continue;
      }
      if MinOn(f) && p.price < f.priceMin.value {
        i := i + 1;
        continue;
      }
      if MaxOn(f) && p.price > f.priceMax.value {
        i := i + 1;
        continue;
      }
      ghost var x := Pick(i, Scored(p, c.score));
      ghost var need := Cap(k) - |picks|;
      assert CatalogPicks(table, cands, f, i, need) == [x] + CatalogPicks(table, cands, f, i + 1, need - 1);
      Shift(picks, x, CatalogPicks(table, cands, f, i + 1, need - 1));
      ItemsAppend(picks, x);
      picks := picks + [x];
      products := products + [Scored(p, c.score)];
      i := i + 1;
      if |products| >= k {
        assert CatalogPicks(table, cands, f, i, Cap(k) - |picks|) == [];
        break;
      }
    }
    CatalogWalkFacts(table, cands, f, Cap(k));
  }

  /** `get_personalized_catalog`. */
  method PersonalizedCatalog(svc: Service, userId: string, f: Filters, k: int) returns (r: CatalogResult)
    requires Valid(svc)
    ensures r.isColdStart <==> userId !in svc.tasteVectors
    ensures r.isColdStart ==> r.products == Items(ColdStartPicks(svc.rows, PyPrefix(svc.popular, k), 0))
    ensures !r.isColdStart ==>
      r.products == Items(CatalogPicks(ProductTable(svc), SearchSimilar(svc.embeddings, svc.tasteVectors[userId], k * 3), f, 0, Cap(k)))
    ensures k >= 1 ==> |r.products| <= k
    ensures !r.isColdStart ==> forall j | 0 <= j < |r.products| :: Passes(r.products[j].product, f)
    ensures !r.isColdStart ==>
      forall a, b | 0 <= a < b < |r.products| :: r.products[a].affinity >= r.products[b].affinity
  {
    if userId !in svc.tasteVectors {
      var products := ColdStart(svc, k);
      return CatalogResult(products, true);
    }
    var taste := svc.tasteVectors[userId];
    var cands := SearchSimilar(svc.embeddings, taste, k * 3);
    SearchHits(svc, taste, k * 3);
    var products := FilterWalk(svc, cands, f, k);
    return CatalogResult(products, false);
  }

  // ---------------------------------------------------------------- taste from calibration

  /** The embeddings of the ids from position i on that resolve, in list order. */
  function Resolved(svc: Service, ids: seq<string>, i: nat): (vs: seq<seq<real>>)
    requires Valid(svc) && i <= |ids|
    ensures AllOfDim(vs, svc.dim) && |vs| <= |ids| - i
    ensures vs == [] <==> forall j | i <= j < |ids| :: GetEmbedding(svc, ids[j]).None?
    decreases |ids| - i
  {
    if i == |ids| then []
    else match GetEmbedding(svc, ids[i])
      case None => Resolved(svc, ids, i + 1)
      case Some(v) => [v] + Resolved(svc, ids, i + 1)
  }

  /** The loop gathering the embeddings of the ids that have one. */
  method CollectEmbeddings(svc: Service, ids: seq<string>) returns (vs: seq<seq<real>>)
    requires Valid(svc)
    ensures vs == Resolved(svc, ids, 0)
  {
    vs := [];
    var i := 0;
    while i < |ids|
      invariant i <= |ids|
      invariant Resolved(svc, ids, 0) == vs + Resolved(svc, ids, i)
    {
      var emb := GetEmbedding(svc, ids[i]);
      if emb.Some? {
        vs := vs + [emb.value];
      }
      i := i + 1;
    }
  }

  const DislikeWeight: real := 0.3

  /** The taste before normalisation: the mean of the liked vectors, less 0.3 times the
      mean of the disliked ones when any disliked id resolves. */
  function RawTaste(svc: Service, liked: seq<string>, disliked: seq<string>): (t: seq<real>)
    requires Valid(svc) && Resolved(svc, liked, 0) != []
    ensures |t| == svc.dim
  {
    var likes := Mean(Resolved(svc, liked, 0), svc.dim);
    var dislikes := Resolved(svc, disliked, 0);
    if dislikes == [] then likes else Sub(likes, Scale(DislikeWeight, Mean(dislikes, svc.dim)))
  }

  /** Liking copies of one vector and disliking nothing gives back that vector. */
  lemma RawTasteOfLikesOnly(svc: Service, liked: seq<string>, disliked: seq<string>, v: seq<real>)
    requires Valid(svc) && Resolved(svc, liked, 0) != [] && Resolved(svc, disliked, 0) == []
    requires forall j | 0 <= j < |Resolved(svc, liked, 0)| :: Resolved(svc, liked, 0)[j] == v
    ensures RawTaste(svc, liked, disliked) == v
  {
    MeanOfCopies(Resolved(svc, liked, 0), v);
  }

  /** Liking copies of v and disliking copies of w gives v - 0.3 w. */
  lemma RawTasteOfLikeAndDislike(svc: Service, liked: seq<string>, disliked: seq<string>, v: seq<real>, w: seq<real>)
    requires Valid(svc) && Resolved(svc, liked, 0) != [] && Resolved(svc, disliked, 0) != []
    requires forall j | 0 <= j < |Resolved(svc, liked, 0)| :: Resolved(svc, liked, 0)[j] == v
    requires forall j | 0 <= j < |Resolved(svc, disliked, 0)| :: Resolved(svc, disliked, 0)[j] == w
    ensures |v| == |w| == svc.dim
    ensures RawTaste(svc, liked, disliked) == Sub(v, Scale(DislikeWeight, w))
  {
    MeanOfCopies(Resolved(svc, liked, 0), v);
    MeanOfCopies(Resolved(svc, disliked, 0), w);
  }

  datatype TasteOutcome = TasteOutcome(tasteVector: seq<real>, recommendations: seq<Scored>)

  const RecommendationCount: nat := 10
  const CalibrationSearchSize: int := 20

  /** From candidate i on: the candidates whose stored id was not swiped and that resolve
      to a product, scored with their search score, stopping after `need` of them. */
  function RecPicks(table: seq<Option<Product>>, ids: seq<string>, cands: seq<Candidate>, seen: set<string>, i: nat, need: nat): seq<Pick<Scored>>
    requires RowsOf(table, cands) && |ids| == |table| && i <= |cands|
    decreases |cands| - i
  {
    if i == |cands| || need == 0 then []
    else if ids[cands[i].idx] in seen then RecPicks(table, ids, cands, seen, i + 1, need)
    else match table[cands[i].idx]
      case None => RecPicks(table, ids, cands, seen, i + 1, need)
      case Some(p) => [Pick(i, Scored(p, cands[i].score))] + RecPicks(table, ids, cands, seen, i + 1, need - 1)
  }

  lemma {:induction false} RecPicksInOrder(table: seq<Option<Product>>, ids: seq<string>, cands: seq<Candidate>, seen: set<string>, i: nat, need: nat)
    requires RowsOf(table, cands) && |ids| == |table| && i <= |cands|
    ensures |RecPicks(table, ids, cands, seen, i, need)| <= need
    ensures InOrder(RecPicks(table, ids, cands, seen, i, need), i, |cands|)
    decreases |cands| - i
  {
    if i < |cands| && need > 0 {
      var r := table[cands[i].idx];
      if ids[cands[i].idx] !in seen && r.Some? {
        RecPicksInOrder(table, ids, cands, seen, i + 1, need - 1);
        InOrderCons(Pick(i, Scored(r.value, cands[i].score)), RecPicks(table, ids, cands, seen, i + 1, need - 1), i, |cands|);
      } else {
        RecPicksInOrder(table, ids, cands, seen, i + 1, need);
        InOrderWeaken(RecPicks(table, ids, cands, seen, i + 1, need), i, |cands|);
      }
    }
  }

  /** A recommended candidate: its stored id was not swiped, it resolves to the product
      kept, and it carries its own search score. */
  ghost predicate Recommended(table: seq<Option<Product>>, ids: seq<string>, cands: seq<Candidate>, seen: set<string>, p: Pick<Scored>)
    requires RowsOf(table, cands) && |ids| == |table|
  {
    && p.pos < |cands|
    && ids[cands[p.pos].idx] !in seen
    && table[cands[p.pos].idx] == Some(p.item.product)
    && p.item.affinity == cands[p.pos].score
  }

  lemma {:induction false} RecPicksSound(table: seq<Option<Product>>, ids: seq<string>, cands: seq<Candidate>, seen: set<string>, i: nat, need: nat)
    requires RowsOf(table, cands) && |ids| == |table| && i <= |cands|
    ensures forall p | p in RecPicks(table, ids, cands, seen, i, need) :: Recommended(table, ids, cands, seen, p)
    decreases |cands| - i
  {
    if i < |cands| && need > 0 {
      var r := table[cands[i].idx];
      if ids[cands[i].idx] !in seen && r.Some? {
        RecPicksSound(table, ids, cands, seen, i + 1, need - 1);
        assert Recommended(table, ids, cands, seen, Pick(i, Scored(r.value, cands[i].score)));
      } else {
        RecPicksSound(table, ids, cands, seen, i + 1, need);
      }
    }
  }

  /** A walk that ends short of `need` has kept every unswiped candidate that resolves. */
  lemma {:induction false} RecPicksComplete(table: seq<Option<Product>>, ids: seq<string>, cands: seq<Candidate>, seen: set<string>, i: nat, need: nat)
    requires RowsOf(table, cands) && |ids| == |table| && i <= |cands|
    ensures |RecPicks(table, ids, cands, seen, i, need)| < need ==>
      forall p | i <= p < |cands| && ids[cands[p].idx] !in seen && table[cands[p].idx].Some? ::
        Picked(RecPicks(table, ids, cands, seen, i, need), p)
    decreases |cands| - i
  {
    if i < |cands| && need > 0 {
      var r := table[cands[i].idx];
      if ids[cands[i].idx] !in seen && r.Some? {
        RecPicksComplete(table, ids, cands, seen, i + 1, need - 1);
        var rest := RecPicks(table, ids, cands, seen, i + 1, need - 1);
        assert ([Pick(i, Scored(r.value, cands[i].score))] + rest)[1..] == rest;
      } else {
        RecPicksComplete(table, ids, cands, seen, i + 1, need);
      }
    }
  }

  /** No recommendation is a swiped product, there are at most `need` of them, and they
      come best first when the candidates do. */
  lemma RecWalkFacts(table: seq<Option<Product>>, ids: seq<string>, cands: seq<Candidate>, seen: set<string>, need: nat)
    requires RowsOf(table, cands) && IdsMatch(table, ids)
    ensures var recs := Items(RecPicks(table, ids, cands, seen, 0, need));
      && |recs| <= need
      && (forall j | 0 <= j < |recs| :: recs[j].product.id !in seen)
      && (SortedByScore(cands) ==>
            forall a, b | 0 <= a < b < |recs| :: recs[a].affinity >= recs[b].affinity)
  {
    var ps := RecPicks(table, ids, cands, seen, 0, need);
    var recs := Items(ps);
    RecPicksInOrder(table, ids, cands, seen, 0, need);
    RecPicksSound(table, ids, cands, seen, 0, need);
    forall j | 0 <= j < |recs| ensures recs[j].product.id !in seen {
      assert Recommended(table, ids, cands, seen, ps[j]);
    }
    if SortedByScore(cands) {
      PicksDescend(cands, ps);
      forall a, b | 0 <= a < b < |recs| ensures recs[a].affinity >= recs[b].affinity {
        assert Recommended(table, ids, cands, seen, ps[a]) && Recommended(table, ids, cands, seen, ps[b]);
      }
    }
  }

  /** The recommendation loop over the search hits. */
  method RecommendWalk(svc: Service, cands: seq<Candidate>, seen: set<string>) returns (products: seq<Scored>)
    requires RowsOf(ProductTable(svc), cands)
    ensures products == Items(RecPicks(ProductTable(svc), svc.idxToId, cands, seen, 0, RecommendationCount))
  {
    ghost var table := ProductTable(svc);
    ghost var picks: seq<Pick<Scored>> := [];
    products := [];
    var i := 0;
    while i < |cands|
      invariant i <= |cands|
      invariant |picks| < RecommendationCount
      invariant products == Items(picks)
      invariant RecPicks(table, svc.idxToId, cands, seen, 0, RecommendationCount)
        == picks + RecPicks(table, svc.idxToId, cands, seen, i, RecommendationCount - |picks|)
    {
      var c := cands[i];
      var pid := svc.idxToId[c.idx];
      if pid in seen {
        i := i + 1;
        continue;
      }
      var prod := ProductAt(svc, c.idx);
      if prod.Some? {
        ghost var x := Pick(i, Scored(prod.value, c.score));
        ghost var need := RecommendationCount - |picks|;
        assert RecPicks(table, svc.idxToId, cands, seen, i, need) == [x] + RecPicks(table, svc.idxToId, cands, seen, i + 1, need - 1);
        Shift(picks, x, RecPicks(table, svc.idxToId, cands, seen, i + 1, need - 1));
        ItemsAppend(picks, x);
        picks := picks + [x];
        products := products + [Scored(prod.value, c.score)];
      }
      i := i + 1;
      if |products| >= RecommendationCount {
        assert RecPicks(table, svc.idxToId, cands, seen, i, RecommendationCount - |picks|) == [];
        break;
      }
    }
  }

  /** The swiped ids as the source collects them: exactly as sent. */
  function SeenAsSent(liked: seq<string>, disliked: seq<string>): (ids: set<string>)
    ensures forall q | q in liked + disliked :: q in ids
  {
    set q | q in liked + disliked
  }

  /** A liked id sent with its leading zero is not in SeenAsSent under the stored
      (zero-stripped) id, so the walk recommends the liked product itself. */
  lemma SeenAsSentRecommendsLiked()
    ensures var p := Product("1", "n", "c", "k", 1.0, "b", "", "");
      && Items(RecPicks([Some(p)], ["1"], [Candidate(0, 1.0)], SeenAsSent(["01"], []), 0, RecommendationCount))
        == [Scored(p, 1.0)]
      && p.id == StripZeros("01")
  {
    var p := Product("1", "n", "c", "k", 1.0, "b", "", "");
    assert "1" !in SeenAsSent(["01"], []);
    assert StripZeros("01") == StripZeros("1");
  }

  /** The swiped ids in the stored (zero-stripped) form, as the search hits carry them. */
  function SwipedIds(liked: seq<string>, disliked: seq<string>): (ids: set<string>)
    ensures forall q | q in liked + disliked :: StripZeros(q) in ids
    ensures forall x | x in ids :: exists q | q in liked + disliked :: x == StripZeros(q)
  {
    set q | q in liked + disliked :: StripZeros(q)
  }

  /** `compute_taste_from_calibration`; `invNorm` is the positive factor
      1 / (norm + 1e-8) the source divides by. */
  method ComputeTasteFromCalibration(svc: Service, liked: seq<string>, disliked: seq<string>, invNorm: real)
    returns (r: Result<TasteOutcome>)
    requires Valid(svc) && invNorm > 0.0
    ensures liked == [] ==> r == Err("Need at least one liked product")
    ensures liked != [] && Resolved(svc, liked, 0) == [] ==> r == Err("No valid products found")
    ensures r.Ok? <==> Resolved(svc, liked, 0) != []
    ensures r.Ok? ==> r.value.tasteVector == Scale(invNorm, RawTaste(svc, liked, disliked))
    ensures r.Ok? ==> var cands := SearchSimilar(svc.embeddings, r.value.tasteVector, CalibrationSearchSize);
      r.value.recommendations
        == Items(RecPicks(ProductTable(svc), svc.idxToId, cands, SwipedIds(liked, disliked), 0, RecommendationCount))
    ensures r.Ok? ==> |r.value.recommendations| <= RecommendationCount
    ensures r.Ok? ==> forall j, q | 0 <= j < |r.value.recommendations| && q in liked + disliked ::
      r.value.recommendations[j].product.id != StripZeros(q)
    ensures r.Ok? ==> forall a, b | 0 <= a < b < |r.value.recommendations| ::
      r.value.recommendations[a].affinity >= r.value.recommendations[b].affinity
  {
    if |liked| == 0 {
      return Err("Need at least one liked product");
    }
    var likedVectors := CollectEmbeddings(svc, liked);
    if |likedVectors| == 0 {
      return Err("No valid products found");
    }
    var taste := Mean(likedVectors, svc.dim);
    if |disliked| > 0 {
      var dislikedVectors := CollectEmbeddings(svc, disliked);
      if |dislikedVectors| > 0 {
        taste := Sub(taste, Scale(DislikeWeight, Mean(dislikedVectors, svc.dim)));
      }
    }
    taste := Scale(invNorm, taste);
    var cands := SearchSimilar(svc.embeddings, taste, CalibrationSearchSize);
    SearchHits(svc, taste, CalibrationSearchSize);
    var seen := SwipedIds(liked, disliked);
    var recs := RecommendWalk(svc, cands, seen);
    ProductTableIds(svc);
    RecWalkFacts(ProductTable(svc), svc.idxToId, cands, seen, RecommendationCount);
    return Ok(TasteOutcome(taste, recs));
  }

  // ---------------------------------------------------------------- calibration set

  /** One card of the onboarding calibration set. */
  datatype CalibrationCard = CalibrationCard(
    id: string, name: string, category: string, color: string, price: real, imageUrl: string)

  function CardOf(row: Row): CalibrationCard {
    CalibrationCard(row.id, row.name, row.productType, row.colourGroup,
      if row.price.Some? then row.price.value else DefaultPrice,
      if row.imageUrl.Some? then row.imageUrl.value else "")
  }

  function CardsOf(rows: seq<Row>): (cs: seq<CalibrationCard>)
    ensures |cs| == |rows| && forall j | 0 <= j < |rows| :: cs[j] == CardOf(rows[j])
  {
    seq(|rows|, j requires 0 <= j < |rows| => CardOf(rows[j]))
  }

  /** The category a count goes by. */
  function CardCategory(x: CalibrationCard): string { x.category }

  /** The cards of one category's sample are all of that category. */
  lemma {:induction false} CardsOfCount(rows: seq<Row>, category: string, cat: string)
    requires forall j | 0 <= j < |rows| :: rows[j].productType == category
    ensures CountBy(CardsOf(rows), CardCategory, cat) == if cat == category then |rows| else 0
  {
    if rows != [] {
      CardsOfCount(rows[1..], category, cat);
      assert CardsOf(rows) == [CardOf(rows[0])] + CardsOf(rows[1..]);
      CountByAppend([CardOf(rows[0])], CardsOf(rows[1..]), CardCategory, cat);
    }
  }

  /** `value_counts().index` lists each product type once. */
  predicate Distinct(categories: seq<string>) {
    forall a, b | 0 <= a < b < |categories| :: categories[a] != categories[b]
  }

  /** `max(2, n // len(categories))`: Python's floor division, which Dafny's `/`
      matches for a positive divisor. */
  function PerCategory(n: int, categories: nat): (m: int)
    requires categories > 0
    ensures m >= 2 && m >= n / categories
    ensures m == 2 || m == n / categories
  {
    if n / categories > 2 then n / categories else 2
  }

  /** Every sample of category i from i on, one category after another. */
  function AllCards(samples: seq<seq<Row>>, i: nat): seq<CalibrationCard>
    requires i <= |samples|
    decreases |samples| - i
  {
    if i == |samples| then [] else CardsOf(samples[i]) + AllCards(samples, i + 1)
  }

  /** The category loop from category i on, holding `have` cards already: each
      category's cards are appended whole, and the loop stops once there are n. */
  function CardsFrom(samples: seq<seq<Row>>, i: nat, have: int, n: int): seq<CalibrationCard>
    requires i <= |samples|
    decreases |samples| - i
  {
    if i == |samples| then []
    else
      var cs := CardsOf(samples[i]);
      if have + |cs| >= n then cs else cs + CardsFrom(samples, i + 1, have + |cs|, n)
  }

  /** Stopping early only drops whole categories once `n - have` cards are in hand. */
  lemma {:induction false} CardsFromIsPrefix(samples: seq<seq<Row>>, i: nat, have: int, n: int)
    requires i <= |samples|
    ensures CardsFrom(samples, i, have, n) <= AllCards(samples, i)
    ensures |CardsFrom(samples, i, have, n)| >= n - have || CardsFrom(samples, i, have, n) == AllCards(samples, i)
    decreases |samples| - i
  {
    if i < |samples| {
      var cs := CardsOf(samples[i]);
      CardsFromIsPrefix(samples, i + 1, have + |cs|, n);
    }
  }

  /** For a non-negative n the early stop changes nothing: the result is the first n
      cards of all the samples. */
  lemma CalibrationIsPrefixOfAll(samples: seq<seq<Row>>, n: int)
    requires n >= 0
    ensures PyPrefix(CardsFrom(samples, 0, 0, n), n) == PyPrefix(AllCards(samples, 0), n)
  {
    CardsFromIsPrefix(samples, 0, 0, n);
  }

  /** Each card of AllCards is the card of a sampled row of its category. */
  lemma {:induction false} AllCardsFromSamples(samples: seq<seq<Row>>, categories: seq<string>, i: nat)
    requires i <= |samples| == |categories|
    requires forall c, j | 0 <= c < |samples| && 0 <= j < |samples[c]| :: samples[c][j].productType == categories[c]
    ensures forall j | 0 <= j < |AllCards(samples, i)| :: AllCards(samples, i)[j].category in categories[i..]
    decreases |samples| - i
  {
    if i < |samples| {
      AllCardsFromSamples(samples, categories, i + 1);
      var cs: seq<CalibrationCard> := CardsOf(samples[i]);
      var rest: seq<CalibrationCard> := AllCards(samples, i + 1);
      assert AllCards(samples, i) == cs + rest;
      forall j: int | 0 <= j < |cs| + |rest| ensures AllCards(samples, i)[j].category in categories[i..] {
        if j < |cs| {
          assert AllCards(samples, i)[j] == CardOf(samples[i][j]);
          assert categories[i..][0] == categories[i];
        } else {
          assert AllCards(samples, i)[j] == rest[j - |cs|];
          assert categories[i + 1..] == categories[i..][1..];
        }
      }
    }
  }

  /** Samples of at most m rows each give at most m cards per category. */
  lemma {:induction false} AllCardsBound(samples: seq<seq<Row>>, i: nat, m: int)
    requires i <= |samples|
    requires forall c | 0 <= c < |samples| :: |samples[c]| <= m
    ensures |AllCards(samples, i)| <= (|samples| - i) * m
    decreases |samples| - i
  {
    if i < |samples| {
      AllCardsBound(samples, i + 1, m);
      assert |AllCards(samples, i)| == |samples[i]| + |AllCards(samples, i + 1)|;
      assert (|samples| - i) * m == (|samples| - (i + 1)) * m + m;
    }
  }

  /** With distinct categories, the cards of category `cat` from category i on are
      those of its own sample: at most m of them, and none when `cat` comes before i. */
  lemma {:induction false} AllCardsQuota(samples: seq<seq<Row>>, categories: seq<string>, i: nat, m: int, cat: string)
    requires i <= |samples| == |categories| && Distinct(categories)
    requires forall c, j | 0 <= c < |samples| && 0 <= j < |samples[c]| :: samples[c][j].productType == categories[c]
    requires forall c | 0 <= c < |samples| :: |samples[c]| <= m
    ensures CountBy(AllCards(samples, i), CardCategory, cat) <= if cat in categories[i..] then m else 0
    decreases |samples| - i
  {
    if i < |samples| {
      AllCardsQuota(samples, categories, i + 1, m, cat);
      CountByAppend(CardsOf(samples[i]), AllCards(samples, i + 1), CardCategory, cat);
      CardsOfCount(samples[i], categories[i], cat);
      assert categories[i..] == [categories[i]] + categories[i + 1..];
      assert categories[i] !in categories[i + 1..];
    }
  }

  /** What the result of the category loop promises. */
  lemma CalibrationFacts(categories: seq<string>, samples: seq<seq<Row>>, n: int, m: int)
    requires |samples| == |categories|
    requires forall c, j | 0 <= c < |samples| && 0 <= j < |samples[c]| :: samples[c][j].productType == categories[c]
    requires forall c | 0 <= c < |samples| :: |samples[c]| <= m
    requires Distinct(categories) && m >= 0
    ensures var r := PyPrefix(CardsFrom(samples, 0, 0, n), n);
      && (n >= 0 ==> r == PyPrefix(AllCards(samples, 0), n) && |r| <= n)
      && (forall j | 0 <= j < |r| :: r[j].category in categories)
      && (forall cat :: CountBy(r, CardCategory, cat) <= m)
      && |r| <= |categories| * m
  {
    AllCardsBound(samples, 0, m);
    var r := PyPrefix(CardsFrom(samples, 0, 0, n), n);
    var all := AllCards(samples, 0);
    CardsFromIsPrefix(samples, 0, 0, n);
    AllCardsFromSamples(samples, categories, 0);
    assert categories[0..] == categories;
    forall j | 0 <= j < |r| ensures r[j].category in categories {
      assert r[j] == all[j];
    }
    forall cat ensures CountBy(r, CardCategory, cat) <= m {
      assert r <= all;
      CountByPrefix(r, all, CardCategory, cat);
      AllCardsQuota(samples, categories, 0, m, cat);
    }
    if n >= 0 {
      CalibrationIsPrefixOfAll(samples, n);
    }
  }

  /** The rows of one category's sample, appended card by card. */
  method AppendCards(products: seq<CalibrationCard>, rows: seq<Row>) returns (out: seq<CalibrationCard>)
    ensures out == products + CardsOf(rows)
  {
    out := products;
    var j := 0;
    while j < |rows|
      invariant j <= |rows|
      invariant out == products + CardsOf(rows[..j])
    {
      assert CardsOf(rows[..j + 1]) == CardsOf(rows[..j]) + [CardOf(rows[j])];
      out := out + [CardOf(rows[j])];
      j := j + 1;
    }
    assert rows[..j] == rows;
  }

  /** The category loop: each category's sample appended whole, stopping once there
      are at least n cards. */
  method CollectCards(samples: seq<seq<Row>>, n: int) returns (products: seq<CalibrationCard>)
    ensures products == CardsFrom(samples, 0, 0, n)
  {
    products := [];
    var i := 0;
    while i < |samples|
      invariant i <= |samples|
      invariant CardsFrom(samples, 0, 0, n) == products + CardsFrom(samples, i, |products|, n)
    {
      ghost var before := products;
      products := AppendCards(products, samples[i]);
      i := i + 1;
      if |products| >= n {
        assert CardsFrom(samples, i - 1, |before|, n) == CardsOf(samples[i - 1]);
        break;
      }
    }
  }

  /** `get_calibration_products`. `categories` is the ten most frequent product types
      (pandas `value_counts().head(10)`) and `samples[c]` the random sample of at most
      PerCategory rows of type `categories[c]`; both are computed by pandas and given
      here. An empty catalogue makes the division by `len(categories)` fail. */
  method GetCalibrationProducts(categories: seq<string>, samples: seq<seq<Row>>, n: int)
    returns (r: Result<seq<CalibrationCard>>)
    requires |samples| == |categories|
    requires forall c, j | 0 <= c < |samples| && 0 <= j < |samples[c]| :: samples[c][j].productType == categories[c]
    requires |categories| > 0 ==> forall c | 0 <= c < |samples| :: |samples[c]| <= PerCategory(n, |categories|)
    requires Distinct(categories)
    ensures r.Err? <==> categories == []
    ensures r.Ok? ==> r.value == PyPrefix(CardsFrom(samples, 0, 0, n), n)
    ensures r.Ok? && n >= 0 ==> r.value == PyPrefix(AllCards(samples, 0), n) && |r.value| <= n
    ensures r.Ok? ==> forall j | 0 <= j < |r.value| :: r.value[j].category in categories
    ensures r.Ok? ==> forall cat :: CountBy(r.value, CardCategory, cat) <= PerCategory(n, |categories|)
    ensures r.Ok? ==> |r.value| <= |categories| * PerCategory(n, |categories|)
  {
    if |categories| == 0 {
      return Err("division by zero");
    }
    var products := CollectCards(samples, n);
    CalibrationFacts(categories, samples, n, PerCategory(n, |categories|));
    return Ok(PyPrefix(products, n));
  }
}
