/** The discovery feed: three sections, "Just For Today" (the user's taste with a little
    noise, or the most popular products), "New Arrivals in Your Style" (further products
    near the taste, none repeated from the first section) and "Trending". */
module Discovery {
  import opened Embeddings
  import opened Vectors
  import opened Walks

  /** A product in a section; personalised entries carry their search score. */
  datatype FeedItem = FeedItem(product: Product, affinity: Option<real>)

  datatype Section = Section(title: string, kind: string, products: seq<FeedItem>)

  const TodaySearchSize: int := 10
  const TodayCount: int := 5
  const NewArrivalsSearchSize: int := 20
  const NewArrivalsCount: nat := 5
  const TrendingWindow: string := "7d"
  const TrendingListed: int := 10
  const TrendingCount: nat := 5

  // ---------------------------------------------------------------- Just For Today

  /** From hit i on: the hits that resolve, each with its search score. */
  function TodayPicks(table: seq<Option<Product>>, cands: seq<Candidate>, i: nat): seq<Pick<FeedItem>>
    requires RowsOf(table, cands) && i <= |cands|
    decreases |cands| - i
  {
    if i == |cands| then []
    else match table[cands[i].idx]
      case None => TodayPicks(table, cands, i + 1)
      case Some(p) => [Pick(i, FeedItem(p, Some(cands[i].score)))] + TodayPicks(table, cands, i + 1)
  }

  lemma {:induction false} TodayPicksInOrder(table: seq<Option<Product>>, cands: seq<Candidate>, i: nat)
    requires RowsOf(table, cands) && i <= |cands|
    ensures |TodayPicks(table, cands, i)| <= |cands| - i
    ensures InOrder(TodayPicks(table, cands, i), i, |cands|)
    decreases |cands| - i
  {
    if i < |cands| {
      TodayPicksInOrder(table, cands, i + 1);
      var rest := TodayPicks(table, cands, i + 1);
      match table[cands[i].idx]
      case None =>
        InOrderWeaken(rest, i, |cands|);
      case Some(p) =>
        InOrderCons(Pick(i, FeedItem(p, Some(cands[i].score))), rest, i, |cands|);
    }
  }

  /** Each entry is the product of its hit, carrying the hit's score. */
  lemma {:induction false} TodayPicksFound(table: seq<Option<Product>>, cands: seq<Candidate>, i: nat)
    requires RowsOf(table, cands) && i <= |cands|
    ensures forall p | p in TodayPicks(table, cands, i) ::
      p.pos < |cands| && table[cands[p.pos].idx] == Some(p.item.product) && p.item.affinity == Some(cands[p.pos].score)
    decreases |cands| - i
  {
    if i < |cands| {
      TodayPicksFound(table, cands, i + 1);
    }
  }

  method TodayWalk(svc: Service, cands: seq<Candidate>) returns (items: seq<FeedItem>)
    requires RowsOf(ProductTable(svc), cands)
    ensures items == Items(TodayPicks(ProductTable(svc), cands, 0))
  {
    ghost var table := ProductTable(svc);
    ghost var picks: seq<Pick<FeedItem>> := [];
    items := [];
    var i := 0;
    while i < |cands|
      invariant i <= |cands|
      invariant items == Items(picks)
      invariant TodayPicks(table, cands, 0) == picks + TodayPicks(table, cands, i)
    {
      var prod := ProductAt(svc, cands[i].idx);
      if prod.Some? {
        ghost var x := Pick(i, FeedItem(prod.value, Some(cands[i].score)));
        assert TodayPicks(table, cands, i) == [x] + TodayPicks(table, cands, i + 1);
        Shift(picks, x, TodayPicks(table, cands, i + 1));
        ItemsAppend(picks, x);
        picks := picks + [x];
        items := items + [FeedItem(prod.value, Some(cands[i].score))];
      }
      i := i + 1;
    }
  }

  /** From id i on: the ids that resolve, without a score. */
  function PopularPicks(rows: seq<Row>, ids: seq<string>, i: nat): seq<Pick<FeedItem>>
    requires i <= |ids|
    decreases |ids| - i
  {
    if i == |ids| then []
    else match GetProduct(rows, ids[i])
      case None => PopularPicks(rows, ids, i + 1)
      case Some(p) => [Pick(i, FeedItem(p, None))] + PopularPicks(rows, ids, i + 1)
  }

  lemma {:induction false} PopularPicksInOrder(rows: seq<Row>, ids: seq<string>, i: nat)
    requires i <= |ids|
    ensures |PopularPicks(rows, ids, i)| <= |ids| - i
    ensures InOrder(PopularPicks(rows, ids, i), i, |ids|)
    decreases |ids| - i
  {
    if i < |ids| {
      PopularPicksInOrder(rows, ids, i + 1);
      var rest := PopularPicks(rows, ids, i + 1);
      match GetProduct(rows, ids[i])
      case None =>
        InOrderWeaken(rest, i, |ids|);
      case Some(p) =>
        InOrderCons(Pick(i, FeedItem(p, None)), rest, i, |ids|);
    }
  }

  /** Each popular entry is the product its id names, without a score. */
  lemma {:induction false} PopularPicksFound(rows: seq<Row>, ids: seq<string>, i: nat)
    requires i <= |ids|
    ensures forall p | p in PopularPicks(rows, ids, i) ::
      p.pos < |ids| && GetProduct(rows, ids[p.pos]) == Some(p.item.product) && p.item.affinity.None?
    decreases |ids| - i
  {
    if i < |ids| {
      PopularPicksFound(rows, ids, i + 1);
    }
  }

  method PopularWalk(svc: Service, ids: seq<string>) returns (items: seq<FeedItem>)
    ensures items == Items(PopularPicks(svc.rows, ids, 0))
  {
    ghost var picks: seq<Pick<FeedItem>> := [];
    items := [];
    var i := 0;
    while i < |ids|
      invariant i <= |ids|
      invariant items == Items(picks)
      invariant PopularPicks(svc.rows, ids, 0) == picks + PopularPicks(svc.rows, ids, i)
    {
      var prod := GetProduct(svc.rows, ids[i]);
      if prod.Some? {
        ItemsAppend(picks, Pick(i, FeedItem(prod.value, None)));
        picks := picks + [Pick(i, FeedItem(prod.value, None))];
        items := items + [FeedItem(prod.value, None)];
      }
      i := i + 1;
    }
  }

  // ---------------------------------------------------------------- New Arrivals

  /** From hit i on, with the ids in `seen` already shown: the hits whose stored id is
      new and that resolve, each id remembered once shown, stopping after `need`. */
  function NewPicks(table: seq<Option<Product>>, ids: seq<string>, cands: seq<Candidate>, seen: set<string>, i: nat, need: nat): seq<Pick<FeedItem>>
    requires RowsOf(table, cands) && |ids| == |table| && i <= |cands|
    decreases |cands| - i
  {
    if i == |cands| || need == 0 then []
    else
      var pid := ids[cands[i].idx];
      if pid in seen then NewPicks(table, ids, cands, seen, i + 1, need)
      else match table[cands[i].idx]
        case None => NewPicks(table, ids, cands, seen, i + 1, need)
        case Some(p) => [Pick(i, FeedItem(p, Some(cands[i].score)))] + NewPicks(table, ids, cands, seen + {pid}, i + 1, need - 1)
  }

  /** The stored id of the hit a pick came from. */
  function PickId(ids: seq<string>, cands: seq<Candidate>, p: Pick<FeedItem>): string
    requires p.pos < |cands| && cands[p.pos].idx < |ids|
  {
    ids[cands[p.pos].idx]
  }

  lemma {:induction false} NewPicksInOrder(table: seq<Option<Product>>, ids: seq<string>, cands: seq<Candidate>, seen: set<string>, i: nat, need: nat)
    requires RowsOf(table, cands) && |ids| == |table| && i <= |cands|
    ensures |NewPicks(table, ids, cands, seen, i, need)| <= need
    ensures InOrder(NewPicks(table, ids, cands, seen, i, need), i, |cands|)
    decreases |cands| - i
  {
    if i < |cands| && need > 0 {
      var pid := ids[cands[i].idx];
      var r := table[cands[i].idx];
      if pid !in seen && r.Some? {
        NewPicksInOrder(table, ids, cands, seen + {pid}, i + 1, need - 1);
        InOrderCons(Pick(i, FeedItem(r.value, Some(cands[i].score))), NewPicks(table, ids, cands, seen + {pid}, i + 1, need - 1), i, |cands|);
      } else {
        NewPicksInOrder(table, ids, cands, seen, i + 1, need);
        InOrderWeaken(NewPicks(table, ids, cands, seen, i + 1, need), i, |cands|);
      }
    }
  }

  /** Every new arrival resolves to the product shown, with its own score, under an id
      not shown before; no two new arrivals share an id. */
  lemma {:induction false} NewPicksSound(table: seq<Option<Product>>, ids: seq<string>, cands: seq<Candidate>, seen: set<string>, i: nat, need: nat)
    requires RowsOf(table, cands) && |ids| == |table| && i <= |cands|
    ensures var ps := NewPicks(table, ids, cands, seen, i, need);
      && (forall j | 0 <= j < |ps| ::
            && ps[j].pos < |cands|
            && PickId(ids, cands, ps[j]) !in seen
            && table[cands[ps[j].pos].idx] == Some(ps[j].item.product)
            && ps[j].item.affinity == Some(cands[ps[j].pos].score))
      && (forall a, b | 0 <= a < b < |ps| :: PickId(ids, cands, ps[a]) != PickId(ids, cands, ps[b]))
    decreases |cands| - i
  {
    if i < |cands| && need > 0 {
      var pid := ids[cands[i].idx];
      var r := table[cands[i].idx];
      if pid !in seen && r.Some? {
        NewPicksSound(table, ids, cands, seen + {pid}, i + 1, need - 1);
        NewPicksInOrder(table, ids, cands, seen + {pid}, i + 1, need - 1);
        var rest := NewPicks(table, ids, cands, seen + {pid}, i + 1, need - 1);
        var ps := [Pick(i, FeedItem(r.value, Some(cands[i].score)))] + rest;
        assert NewPicks(table, ids, cands, seen, i, need) == ps;
        forall j | 0 <= j < |ps|
          ensures ps[j].pos < |cands| && PickId(ids, cands, ps[j]) !in seen
          ensures table[cands[ps[j].pos].idx] == Some(ps[j].item.product)
          ensures ps[j].item.affinity == Some(cands[ps[j].pos].score)
        {
          if j > 0 {
            assert ps[j] == rest[j - 1];
          }
        }
        forall a, b | 0 <= a < b < |ps| ensures PickId(ids, cands, ps[a]) != PickId(ids, cands, ps[b]) {
          assert ps[b] == rest[b - 1];
          if a > 0 {
            assert ps[a] == rest[a - 1];
          }
        }
      } else {
        assert NewPicks(table, ids, cands, seen, i, need) == NewPicks(table, ids, cands, seen, i + 1, need);
        NewPicksSound(table, ids, cands, seen, i + 1, need);
      }
    }
  }

  /** The new-arrivals loop: `seen` grows by each id shown. */
  method NewArrivalsWalk(svc: Service, cands: seq<Candidate>, shown: set<string>) returns (items: seq<FeedItem>)
    requires RowsOf(ProductTable(svc), cands)
    ensures items == Items(NewPicks(ProductTable(svc), svc.idxToId, cands, shown, 0, NewArrivalsCount))
  {
    ghost var table := ProductTable(svc);
    ghost var picks: seq<Pick<FeedItem>> := [];
    var seen := shown;
    items := [];
    var i := 0;
    while i < |cands|
      invariant i <= |cands|
      invariant |picks| < NewArrivalsCount
      invariant items == Items(picks)
      invariant NewPicks(table, svc.idxToId, cands, shown, 0, NewArrivalsCount)
        == picks + NewPicks(table, svc.idxToId, cands, seen, i, NewArrivalsCount - |picks|)
    {
      var pid := svc.idxToId[cands[i].idx];
      if pid in seen {
        i := i + 1;
        continue;
      }
      var prod := ProductAt(svc, cands[i].idx);
      if prod.Some? {
        ghost var x := Pick(i, FeedItem(prod.value, Some(cands[i].score)));
        ghost var need := NewArrivalsCount - |picks|;
        assert NewPicks(table, svc.idxToId, cands, seen, i, need)
          == [x] + NewPicks(table, svc.idxToId, cands, seen + {pid}, i + 1, need - 1);
        Shift(picks, x, NewPicks(table, svc.idxToId, cands, seen + {pid}, i + 1, need - 1));
        ItemsAppend(picks, x);
        picks := picks + [x];
        items := items + [FeedItem(prod.value, Some(cands[i].score))];
        seen := seen + {pid};
      }
      i := i + 1;
      if |items| >= NewArrivalsCount {
        assert NewPicks(table, svc.idxToId, cands, seen, i, NewArrivalsCount - |picks|) == [];
        break;
      }
    }
  }

  /** New arrivals number at most five, none has the id of an already shown product, and
      no two share an id. */
  lemma NewArrivalsFacts(table: seq<Option<Product>>, ids: seq<string>, cands: seq<Candidate>, shown: set<string>)
    requires RowsOf(table, cands) && IdsMatch(table, ids)
    ensures var items := Items(NewPicks(table, ids, cands, shown, 0, NewArrivalsCount));
      && |items| <= NewArrivalsCount
      && (forall j | 0 <= j < |items| :: items[j].product.id !in shown)
      && (forall a, b | 0 <= a < b < |items| :: items[a].product.id != items[b].product.id)
  {
    var ps := NewPicks(table, ids, cands, shown, 0, NewArrivalsCount);
    var items := Items(ps);
    NewPicksInOrder(table, ids, cands, shown, 0, NewArrivalsCount);
    NewPicksSound(table, ids, cands, shown, 0, NewArrivalsCount);
    forall j | 0 <= j < |items| ensures items[j].product.id == PickId(ids, cands, ps[j]) {
    }
  }

  // ---------------------------------------------------------------- Trending

  /** The id a trending entry names: the string itself, a record's `product_id`, or
      else the record's own text. */
  function TrendId(e: TrendEntry): string {
    match e
    case IdEntry(id) => id
    case RecordEntry(productId, text) => if productId.Some? then productId.value else text
  }

  /** `trending.get("7d", [])`. */
  function TrendingList(svc: Service): seq<TrendEntry> {
    if TrendingWindow in svc.trending then svc.trending[TrendingWindow] else []
  }

  /** From entry i on: the entries whose id resolves, stopping after `need` of them. */
  function TrendPicks(rows: seq<Row>, entries: seq<TrendEntry>, i: nat, need: nat): seq<Pick<FeedItem>>
    requires i <= |entries|
    decreases |entries| - i
  {
    if i == |entries| || need == 0 then []
    else match GetProduct(rows, TrendId(entries[i]))
      case None => TrendPicks(rows, entries, i + 1, need)
      case Some(p) => [Pick(i, FeedItem(p, None))] + TrendPicks(rows, entries, i + 1, need - 1)
  }

  lemma {:induction false} TrendPicksInOrder(rows: seq<Row>, entries: seq<TrendEntry>, i: nat, need: nat)
    requires i <= |entries|
    ensures |TrendPicks(rows, entries, i, need)| <= need
    ensures InOrder(TrendPicks(rows, entries, i, need), i, |entries|)
    decreases |entries| - i
  {
    if i < |entries| && need > 0 {
      match GetProduct(rows, TrendId(entries[i]))
      case None =>
        TrendPicksInOrder(rows, entries, i + 1, need);
        InOrderWeaken(TrendPicks(rows, entries, i + 1, need), i, |entries|);
      case Some(p) =>
        TrendPicksInOrder(rows, entries, i + 1, need - 1);
        InOrderCons(Pick(i, FeedItem(p, None)), TrendPicks(rows, entries, i + 1, need - 1), i, |entries|);
    }
  }

  /** A trending entry shown: the product its entry names. */
  ghost predicate Trended(rows: seq<Row>, entries: seq<TrendEntry>, p: Pick<FeedItem>) {
    p.pos < |entries| && GetProduct(rows, TrendId(entries[p.pos])) == Some(p.item.product)
  }

  lemma {:induction false} TrendPicksFound(rows: seq<Row>, entries: seq<TrendEntry>, i: nat, need: nat)
    requires i <= |entries|
    ensures forall p | p in TrendPicks(rows, entries, i, need) :: Trended(rows, entries, p)
    decreases |entries| - i
  {
    if i < |entries| && need > 0 {
      var r := GetProduct(rows, TrendId(entries[i]));
      if r.Some? {
        TrendPicksFound(rows, entries, i + 1, need - 1);
        assert Trended(rows, entries, Pick(i, FeedItem(r.value, None)));
      } else {
        TrendPicksFound(rows, entries, i + 1, need);
      }
    }
  }

  method TrendingWalk(svc: Service, entries: seq<TrendEntry>) returns (items: seq<FeedItem>)
    ensures items == Items(TrendPicks(svc.rows, entries, 0, TrendingCount))
  {
    ghost var picks: seq<Pick<FeedItem>> := [];
    items := [];
    var i := 0;
    while i < |entries|
      invariant i <= |entries|
      invariant |picks| < TrendingCount
      invariant items == Items(picks)
      invariant TrendPicks(svc.rows, entries, 0, TrendingCount) == picks + TrendPicks(svc.rows, entries, i, TrendingCount - |picks|)
    {
      var prod := GetProduct(svc.rows, TrendId(entries[i]));
      ghost var need := TrendingCount - |picks|;
      if prod.Some? {
        ghost var x := Pick(i, FeedItem(prod.value, None));
        assert TrendPicks(svc.rows, entries, i, need) == [x] + TrendPicks(svc.rows, entries, i + 1, need - 1);
        Shift(picks, x, TrendPicks(svc.rows, entries, i + 1, need - 1));
        ItemsAppend(picks, x);
        picks := picks + [x];
        items := items + [FeedItem(prod.value, None)];
      } else {
        assert TrendPicks(svc.rows, entries, i, need) == TrendPicks(svc.rows, entries, i + 1, need);
      }
      i := i + 1;
      if |items| >= TrendingCount {
        assert TrendPicks(svc.rows, entries, i, TrendingCount - |picks|) == [];
        break;
      }
    }
  }

  // ---------------------------------------------------------------- the feed

  /** The ids of the products of a section. */
  function ShownIds(items: seq<FeedItem>): (ids: set<string>)
    ensures forall j | 0 <= j < |items| :: items[j].product.id in ids
  {
    set x | x in items :: x.product.id
  }

  /** `get_discovery_feed`. `noise` is the random vector `randn(len(taste)) * 0.1` and
      `invNorm` the positive factor `1 / (norm + 1e-8)` of the noisy taste. */
  method GetDiscoveryFeed(svc: Service, userId: string, noise: seq<real>, invNorm: real) returns (sections: seq<Section>)
    requires Valid(svc) && invNorm > 0.0
    requires userId in svc.tasteVectors ==> |noise| == svc.dim
    ensures |sections| == 3
    ensures sections[0].title == "Just For Today" && sections[0].kind == "personalized"
    ensures sections[1].title == "New Arrivals in Your Style" && sections[1].kind == "new_arrivals"
    ensures sections[2].title == "Trending" && sections[2].kind == "trending"
    ensures userId !in svc.tasteVectors ==>
      sections[0].products == Items(PopularPicks(svc.rows, PyPrefix(svc.popular, TodayCount), 0))
    ensures userId in svc.tasteVectors ==>
      var varied := Scale(invNorm, Add(svc.tasteVectors[userId], noise));
      sections[0].products == Items(TodayPicks(ProductTable(svc), PyPrefix(SearchSimilar(svc.embeddings, varied, TodaySearchSize), TodayCount), 0))
    ensures |sections[0].products| <= TodayCount
    ensures userId !in svc.tasteVectors ==> sections[1].products == []
    ensures userId in svc.tasteVectors ==>
      sections[1].products == Items(NewPicks(ProductTable(svc), svc.idxToId,
        SearchSimilar(svc.embeddings, svc.tasteVectors[userId], NewArrivalsSearchSize), ShownIds(sections[0].products), 0, NewArrivalsCount))
    ensures |sections[1].products| <= NewArrivalsCount
    ensures forall a, b | 0 <= a < |sections[0].products| && 0 <= b < |sections[1].products| ::
      sections[0].products[a].product.id != sections[1].products[b].product.id
    ensures forall a, b | 0 <= a < b < |sections[1].products| ::
      sections[1].products[a].product.id != sections[1].products[b].product.id
    ensures sections[2].products == Items(TrendPicks(svc.rows, PyPrefix(TrendingList(svc), TrendingListed), 0, TrendingCount))
    ensures |sections[2].products| <= TrendingCount
  {
    var today: seq<FeedItem>;
    if userId in svc.tasteVectors {
      var taste := svc.tasteVectors[userId];
      var varied := Scale(invNorm, Add(taste, noise));
      var cands := SearchSimilar(svc.embeddings, varied, TodaySearchSize);
      SearchHits(svc, varied, TodaySearchSize);
      today := TodayWalk(svc, PyPrefix(cands, TodayCount));
      TodayPicksInOrder(ProductTable(svc), PyPrefix(cands, TodayCount), 0);
    } else {
      today := PopularWalk(svc, PyPrefix(svc.popular, TodayCount));
      PopularPicksInOrder(svc.rows, PyPrefix(svc.popular, TodayCount), 0);
    }
    var arrivals: seq<FeedItem> := [];
    if userId in svc.tasteVectors {
      var taste := svc.tasteVectors[userId];
      var cands := SearchSimilar(svc.embeddings, taste, NewArrivalsSearchSize);
      SearchHits(svc, taste, NewArrivalsSearchSize);
      var shown := ShownIds(today);
      arrivals := NewArrivalsWalk(svc, cands, shown);
      ProductTableIds(svc);
      NewArrivalsFacts(ProductTable(svc), svc.idxToId, cands, shown);
    }
    var trending := TrendingWalk(svc, PyPrefix(TrendingList(svc), TrendingListed));
    TrendPicksInOrder(svc.rows, PyPrefix(TrendingList(svc), TrendingListed), 0, TrendingCount);
    sections := [
      Section("Just For Today", "personalized", today),
      Section("New Arrivals in Your Style", "new_arrivals", arrivals),
      Section("Trending", "trending", trending)
    ];
  }
}
