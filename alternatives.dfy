/** The alternatives router: the products nearest a given one, each with the reasons
    it is offered (same style, same colour, or merely similar). */
module Alternatives {
  import opened Embeddings
  import opened Walks

  datatype Reason = SameStyle(category: string) | SameColor(color: string) | SimilarStyle

  datatype Alternative = Alternative(product: Product, similarity: real, reasons: seq<Reason>)

  datatype AlternativesResult = AlternativesResult(source: Product, alternatives: seq<Alternative>)

  /** Why `p` is offered for `source`: the shared category, then the shared colour, and
      "similar style" only when neither is shared. */
  function Reasons(source: Product, p: Product): (r: seq<Reason>)
    ensures 1 <= |r| <= 2
    ensures |r| == (if p.category == source.category then 1 else 0) + (if p.color == source.color then 1 else 0)
      + (if p.category != source.category && p.color != source.color then 1 else 0)
    ensures SameStyle(source.category) in r <==> p.category == source.category
    ensures SameColor(source.color) in r <==> p.color == source.color
    ensures SimilarStyle in r <==> p.category != source.category && p.color != source.color
    ensures p.category == source.category ==> r[0] == SameStyle(source.category)
    ensures forall x | x in r :: x == SameStyle(source.category) || x == SameColor(source.color) || x == SimilarStyle
  {
    var shared := (if p.category == source.category then [SameStyle(source.category)] else [])
      + (if p.color == source.color then [SameColor(source.color)] else []);
    if shared == [] then [SimilarStyle] else shared
  }

  /** The alternative offered for `p` at search score `score`. */
  function Offer(source: Product, p: Product, score: real): Alternative {
    Alternative(p, score, Reasons(source, p))
  }

  /** From candidate i on: every candidate other than the source product that resolves,
      with its search score and reasons, stopping after `need` of them. */
  function AltPicks(table: seq<Option<Product>>, ids: seq<string>, cands: seq<Candidate>, self: string, source: Product, i: nat, need: nat): seq<Pick<Alternative>>
    requires RowsOf(table, cands) && |ids| == |table| && i <= |cands|
    decreases |cands| - i
  {
    if i == |cands| || need == 0 then []
    else if ids[cands[i].idx] == self then AltPicks(table, ids, cands, self, source, i + 1, need)
    else match table[cands[i].idx]
      case None => AltPicks(table, ids, cands, self, source, i + 1, need)
      case Some(p) =>
        [Pick(i, Offer(source, p, cands[i].score))] + AltPicks(table, ids, cands, self, source, i + 1, need - 1)
  }

  lemma {:induction false} AltPicksInOrder(table: seq<Option<Product>>, ids: seq<string>, cands: seq<Candidate>, self: string, source: Product, i: nat, need: nat)
    requires RowsOf(table, cands) && |ids| == |table| && i <= |cands|
    ensures |AltPicks(table, ids, cands, self, source, i, need)| <= need
    ensures InOrder(AltPicks(table, ids, cands, self, source, i, need), i, |cands|)
    decreases |cands| - i
  {
    if i < |cands| && need > 0 {
      var r := table[cands[i].idx];
      if ids[cands[i].idx] != self && r.Some? {
        AltPicksInOrder(table, ids, cands, self, source, i + 1, need - 1);
        InOrderCons(Pick(i, Offer(source, r.value, cands[i].score)),
          AltPicks(table, ids, cands, self, source, i + 1, need - 1), i, |cands|);
      } else {
        AltPicksInOrder(table, ids, cands, self, source, i + 1, need);
        InOrderWeaken(AltPicks(table, ids, cands, self, source, i + 1, need), i, |cands|);
      }
    }
  }

  /** An offered candidate: not the source, resolved to the product offered, with its
      own search score and the reasons for that product. */
  ghost predicate Offered(table: seq<Option<Product>>, ids: seq<string>, cands: seq<Candidate>, self: string, source: Product, p: Pick<Alternative>)
    requires RowsOf(table, cands) && |ids| == |table|
  {
    && p.pos < |cands|
    && ids[cands[p.pos].idx] != self
    && table[cands[p.pos].idx] == Some(p.item.product)
    && p.item.similarity == cands[p.pos].score
    && p.item.reasons == Reasons(source, p.item.product)
  }

  lemma {:induction false} AltPicksSound(table: seq<Option<Product>>, ids: seq<string>, cands: seq<Candidate>, self: string, source: Product, i: nat, need: nat)
    requires RowsOf(table, cands) && |ids| == |table| && i <= |cands|
    ensures forall p | p in AltPicks(table, ids, cands, self, source, i, need) :: Offered(table, ids, cands, self, source, p)
    decreases |cands| - i
  {
    if i < |cands| && need > 0 {
      var r := table[cands[i].idx];
      if ids[cands[i].idx] != self && r.Some? {
        AltPicksSound(table, ids, cands, self, source, i + 1, need - 1);
        assert Offered(table, ids, cands, self, source, Pick(i, Offer(source, r.value, cands[i].score)));
      } else {
        AltPicksSound(table, ids, cands, self, source, i + 1, need);
      }
    }
  }

  /** A walk that ends short of `need` has offered every other candidate that resolves. */
  lemma {:induction false} AltPicksComplete(table: seq<Option<Product>>, ids: seq<string>, cands: seq<Candidate>, self: string, source: Product, i: nat, need: nat)
    requires RowsOf(table, cands) && |ids| == |table| && i <= |cands|
    ensures |AltPicks(table, ids, cands, self, source, i, need)| < need ==>
      forall p | i <= p < |cands| && ids[cands[p].idx] != self && table[cands[p].idx].Some? ::
        Picked(AltPicks(table, ids, cands, self, source, i, need), p)
    decreases |cands| - i
  {
    if i < |cands| && need > 0 {
      var r := table[cands[i].idx];
      if ids[cands[i].idx] != self && r.Some? {
        AltPicksComplete(table, ids, cands, self, source, i + 1, need - 1);
        var rest := AltPicks(table, ids, cands, self, source, i + 1, need - 1);
        assert ([Pick(i, Offer(source, r.value, cands[i].score))] + rest)[1..] == rest;
      } else {
        AltPicksComplete(table, ids, cands, self, source, i + 1, need);
      }
    }
  }

  /** The source product is never among its alternatives; there are at most `need`,
      best first when the candidates are, each with the reasons for it. */
  lemma AltWalkFacts(table: seq<Option<Product>>, ids: seq<string>, cands: seq<Candidate>, self: string, source: Product, need: nat)
    requires RowsOf(table, cands) && IdsMatch(table, ids)
    ensures var alts := Items(AltPicks(table, ids, cands, self, source, 0, need));
      && |alts| <= need
      && (forall j | 0 <= j < |alts| :: alts[j].product.id != self && alts[j].reasons == Reasons(source, alts[j].product))
      && (SortedByScore(cands) ==>
            forall a, b | 0 <= a < b < |alts| :: alts[a].similarity >= alts[b].similarity)
  {
    var ps := AltPicks(table, ids, cands, self, source, 0, need);
    var alts := Items(ps);
    AltPicksInOrder(table, ids, cands, self, source, 0, need);
    AltPicksSound(table, ids, cands, self, source, 0, need);
    forall j | 0 <= j < |alts| ensures alts[j].product.id != self && alts[j].reasons == Reasons(source, alts[j].product) {
      assert Offered(table, ids, cands, self, source, ps[j]);
    }
    if SortedByScore(cands) {
      PicksDescend(cands, ps);
      forall a, b | 0 <= a < b < |alts| ensures alts[a].similarity >= alts[b].similarity {
        assert Offered(table, ids, cands, self, source, ps[a]) && Offered(table, ids, cands, self, source, ps[b]);
      }
    }
  }

  /** One accepted candidate: its alternative heads the rest of the walk. */
  lemma AltPicksTake(table: seq<Option<Product>>, ids: seq<string>, cands: seq<Candidate>, self: string, source: Product, i: nat, need: nat, p: Product)
    requires RowsOf(table, cands) && |ids| == |table| && i < |cands| && need > 0
    requires ids[cands[i].idx] != self && table[cands[i].idx] == Some(p)
    ensures AltPicks(table, ids, cands, self, source, i, need)
      == [Pick(i, Offer(source, p, cands[i].score))] + AltPicks(table, ids, cands, self, source, i + 1, need - 1)
  {
  }

  /** The loop over the search hits. */
  method AltLoop(svc: Service, cands: seq<Candidate>, self: string, source: Product, k: int) returns (alts: seq<Alternative>)
    requires RowsOf(ProductTable(svc), cands)
    ensures alts == Items(AltPicks(ProductTable(svc), svc.idxToId, cands, self, source, 0, Cap(k)))
  {
    ghost var table := ProductTable(svc);
    ghost var picks: seq<Pick<Alternative>> := [];
    alts := [];
    var i := 0;
    while i < |cands|
      invariant i <= |cands|
      invariant |picks| < Cap(k)
      invariant alts == Items(picks)
      invariant AltPicks(table, svc.idxToId, cands, self, source, 0, Cap(k))
        == picks + AltPicks(table, svc.idxToId, cands, self, source, i, Cap(k) - |picks|)
    {
      var c := cands[i];
      var pid := svc.idxToId[c.idx];
      if pid == self {
        i := i + 1;
        continue;
      }
      var prod := ProductAt(svc, c.idx);
      if prod.None? {
        i := i + 1;
        continue;
      }
      var alt := Offer(source, prod.value, c.score);
      ghost var x := Pick(i, alt);
      ghost var need := Cap(k) - |picks|;
      AltPicksTake(table, svc.idxToId, cands, self, source, i, need, prod.value);
      Shift(picks, x, AltPicks(table, svc.idxToId, cands, self, source, i + 1, need - 1));
      ItemsAppend(picks, x);
      picks := picks + [x];
      alts := alts + [alt];
      i := i + 1;
      if |alts| >= k {
        assert AltPicks(table, svc.idxToId, cands, self, source, i, Cap(k) - |picks|) == [];
        break;
      }
    }
  }

  /** The loop over the search hits, with what it promises about its result. */
  method AltWalk(svc: Service, cands: seq<Candidate>, self: string, source: Product, k: int) returns (alts: seq<Alternative>)
    requires RowsOf(ProductTable(svc), cands) && IdsMatch(ProductTable(svc), svc.idxToId)
    ensures alts == Items(AltPicks(ProductTable(svc), svc.idxToId, cands, self, source, 0, Cap(k)))
    ensures |alts| <= Cap(k)
    ensures forall j | 0 <= j < |alts| :: alts[j].product.id != self && alts[j].reasons == Reasons(source, alts[j].product)
    ensures SortedByScore(cands) ==> forall a, b | 0 <= a < b < |alts| :: alts[a].similarity >= alts[b].similarity
  {
    alts := AltLoop(svc, cands, self, source, k);
    AltWalkFacts(ProductTable(svc), svc.idxToId, cands, self, source, Cap(k));
  }

  /** `get_alternatives`. */
  method GetAlternatives(svc: Service, productId: string, k: int) returns (r: Result<AlternativesResult>)
    requires Valid(svc)
    ensures GetProduct(svc.rows, productId).None? ==> r == Err("Product not found")
    ensures GetProduct(svc.rows, productId).Some? && GetEmbedding(svc, productId).None? ==>
      r == Err("No embedding for product")
    ensures r.Ok? <==> GetProduct(svc.rows, productId).Some? && GetEmbedding(svc, productId).Some?
    ensures r.Ok? ==> r.value.source == GetProduct(svc.rows, productId).value
    ensures r.Ok? ==> r.value.alternatives == Items(AltPicks(ProductTable(svc), svc.idxToId,
      SearchSimilar(svc.embeddings, GetEmbedding(svc, productId).value, k * 2), StripZeros(productId), r.value.source, 0, Cap(k)))
    ensures r.Ok? ==> |r.value.alternatives| <= Cap(k)
    ensures r.Ok? ==> forall j | 0 <= j < |r.value.alternatives| ::
      r.value.alternatives[j].product.id != r.value.source.id
      && r.value.alternatives[j].reasons == Reasons(r.value.source, r.value.alternatives[j].product)
    ensures r.Ok? ==> forall a, b | 0 <= a < b < |r.value.alternatives| ::
      r.value.alternatives[a].similarity >= r.value.alternatives[b].similarity
  {
    var source := GetProduct(svc.rows, productId);
    if source.None? {
      return Err("Product not found");
    }
    var emb := GetEmbedding(svc, productId);
    if emb.None? {
      return Err("No embedding for product");
    }
    var cands := SearchSimilar(svc.embeddings, emb.value, k * 2);
    SearchHits(svc, emb.value, k * 2);
    var self := StripZeros(productId);
    ProductTableIds(svc);
    var alts := AltWalk(svc, cands, self, source.value, k);
    return Ok(AlternativesResult(source.value, alts));
  }
}
