/** The gifts router: suggestions for a gift list (popular dresses, sweaters and bags
    when the list is empty, else products near the list's mean vector, one per category
    when diversifying) and suggestions for a recipient's own taste. */
module Gifts {
  import opened Embeddings
  import opened Vectors
  import opened Walks

  /** Why a product is suggested. `PopularGift` and `MatchesLove` hold the category,
      which the source shows lower-cased; `MatchesStyle` holds the affinity the source
      prints as a percentage. */
  datatype GiftReason =
    | PopularGift(category: string)
    | MatchesLove(category: string)
    | FavoriteColor(color: string)
    | Complements
    | MatchesStyle(affinity: real)

  /** One suggestion; `score` is the similarity (list path) or affinity (recipient
      path) and is absent on the popular-gift path. */
  datatype Suggestion = Suggestion(
    productId: string, name: string, category: string, color: string, price: real,
    score: Option<real>, reason: GiftReason)

  /** The response; `isEmptyList` is absent from the recipient path's own answer. */
  datatype GiftResult = GiftResult(suggestions: seq<Suggestion>, isEmptyList: Option<bool>)

  const GiftCategories: seq<string> := ["Dress", "Sweater", "Bag"]
  const PopularPerCategory: nat := 3
  const SearchFactor: int := 5
  const ExcludedCategories: set<string> := {"Underwear bottom", "Underwear Tights", "Socks"}

  // ---------------------------------------------------------------- empty gift list

  function PopularSuggestion(row: Row, category: string): Suggestion {
    Suggestion(row.id, row.name, row.productType, row.colourGroup,
      if row.price.Some? then row.price.value else DefaultPrice, None, PopularGift(category))
  }

  function PopularSuggestions(rows: seq<Row>, category: string): (s: seq<Suggestion>)
    ensures |s| == |rows| && forall j | 0 <= j < |rows| :: s[j] == PopularSuggestion(rows[j], category)
  {
    seq(|rows|, j requires 0 <= j < |rows| => PopularSuggestion(rows[j], category))
  }

  /** The samples of the gift categories from category i on, one after another. */
  function PopularFrom(samples: seq<seq<Row>>, i: nat): seq<Suggestion>
    requires i <= |samples| <= |GiftCategories|
    decreases |samples| - i
  {
    if i == |samples| then [] else PopularSuggestions(samples[i], GiftCategories[i]) + PopularFrom(samples, i + 1)
  }

  /** The category a count goes by. */
  function SuggestionCategory(x: Suggestion): string { x.category }

  /** The suggestions of one category's sample are all of that category. */
  lemma {:induction false} PopularSuggestionsCount(rows: seq<Row>, category: string, cat: string)
    requires forall j | 0 <= j < |rows| :: rows[j].productType == category
    ensures CountBy(PopularSuggestions(rows, category), SuggestionCategory, cat) == if cat == category then |rows| else 0
  {
    if rows != [] {
      PopularSuggestionsCount(rows[1..], category, cat);
      assert PopularSuggestions(rows, category) == [PopularSuggestion(rows[0], category)] + PopularSuggestions(rows[1..], category);
      CountByAppend([PopularSuggestion(rows[0], category)], PopularSuggestions(rows[1..], category), SuggestionCategory, cat);
    }
  }

  /** Per category, the samples from category i on hold at most three suggestions, and
      none of a category before i. */
  lemma {:induction false} PopularFromQuota(samples: seq<seq<Row>>, i: nat, cat: string)
    requires i <= |samples| == |GiftCategories|
    requires forall c | 0 <= c < |samples| :: |samples[c]| <= PopularPerCategory
    requires forall c, j | 0 <= c < |samples| && 0 <= j < |samples[c]| :: samples[c][j].productType == GiftCategories[c]
    ensures CountBy(PopularFrom(samples, i), SuggestionCategory, cat) <= if cat in GiftCategories[i..] then PopularPerCategory else 0
    decreases |samples| - i
  {
    if i < |samples| {
      var head := PopularSuggestions(samples[i], GiftCategories[i]);
      PopularFromQuota(samples, i + 1, cat);
      CountByAppend(head, PopularFrom(samples, i + 1), SuggestionCategory, cat);
      PopularSuggestionsCount(samples[i], GiftCategories[i], cat);
      assert GiftCategories[i..] == [GiftCategories[i]] + GiftCategories[i + 1..];
      assert GiftCategories[i] !in GiftCategories[i + 1..];
    }
  }

  /** The samples of the gift categories: each suggestion is a sampled row of its
      category, with that category as the reason; at most three per category. */
  lemma {:induction false} PopularFromFacts(samples: seq<seq<Row>>, i: nat)
    requires i <= |samples| == |GiftCategories|
    requires forall c | 0 <= c < |samples| :: |samples[c]| <= PopularPerCategory
    requires forall c, j | 0 <= c < |samples| && 0 <= j < |samples[c]| :: samples[c][j].productType == GiftCategories[c]
    ensures |PopularFrom(samples, i)| <= (|samples| - i) * PopularPerCategory
    ensures forall s | s in PopularFrom(samples, i) ::
      s.category in GiftCategories && s.reason == PopularGift(s.category) && s.score.None?
    ensures forall cat :: CountBy(PopularFrom(samples, i), SuggestionCategory, cat) <= PopularPerCategory
    decreases |samples| - i
  {
    forall cat ensures CountBy(PopularFrom(samples, i), SuggestionCategory, cat) <= PopularPerCategory {
      PopularFromQuota(samples, i, cat);
    }
    if i < |samples| {
      PopularFromFacts(samples, i + 1);
      var head := PopularSuggestions(samples[i], GiftCategories[i]);
      forall s | s in head ensures s.category in GiftCategories && s.reason == PopularGift(s.category) && s.score.None? {
        var j :| 0 <= j < |head| && head[j] == s;
        assert s == PopularSuggestion(samples[i][j], GiftCategories[i]);
      }
    }
  }

  /** The sampled rows of one category, appended one by one. */
  method AppendPopular(out: seq<Suggestion>, rows: seq<Row>, category: string) returns (r: seq<Suggestion>)
    ensures r == out + PopularSuggestions(rows, category)
  {
    r := out;
    var j := 0;
    while j < |rows|
      invariant j <= |rows|
      invariant r == out + PopularSuggestions(rows[..j], category)
    {
      assert PopularSuggestions(rows[..j + 1], category) == PopularSuggestions(rows[..j], category) + [PopularSuggestion(rows[j], category)];
      r := r + [PopularSuggestion(rows[j], category)];
      j := j + 1;
    }
    assert rows[..j] == rows;
  }

  /** The empty-list answer. `samples[c]` is pandas' random sample of at most three rows
      of category `GiftCategories[c]` (empty when the catalogue has none). */
  method PopularGifts(samples: seq<seq<Row>>, k: int) returns (r: GiftResult)
    requires |samples| == |GiftCategories|
    requires forall c | 0 <= c < |samples| :: |samples[c]| <= PopularPerCategory
    requires forall c, j | 0 <= c < |samples| && 0 <= j < |samples[c]| :: samples[c][j].productType == GiftCategories[c]
    ensures r.isEmptyList == Some(true)
    ensures r.suggestions == PyPrefix(PopularFrom(samples, 0), k)
    ensures |r.suggestions| <= |GiftCategories| * PopularPerCategory
    ensures k >= 0 ==> |r.suggestions| <= k
    ensures forall j | 0 <= j < |r.suggestions| ::
      r.suggestions[j].category in GiftCategories && r.suggestions[j].reason == PopularGift(r.suggestions[j].category)
    ensures forall cat :: CountBy(r.suggestions, SuggestionCategory, cat) <= PopularPerCategory
  {
    var suggestions: seq<Suggestion> := [];
    var c := 0;
    while c < |GiftCategories|
      invariant c <= |GiftCategories|
      invariant PopularFrom(samples, 0) == suggestions + PopularFrom(samples, c)
    {
      ghost var head := PopularSuggestions(samples[c], GiftCategories[c]);
      assert PopularFrom(samples, c) == head + PopularFrom(samples, c + 1);
      assert suggestions + (head + PopularFrom(samples, c + 1)) == (suggestions + head) + PopularFrom(samples, c + 1);
      suggestions := AppendPopular(suggestions, samples[c], GiftCategories[c]);
      c := c + 1;
    }
    assert suggestions == PopularFrom(samples, 0);
    PopularFromFacts(samples, 0);
    var shown := PyPrefix(suggestions, k);
    forall j | 0 <= j < |shown|
      ensures shown[j].category in GiftCategories && shown[j].reason == PopularGift(shown[j].category)
    {
      assert shown[j] == suggestions[j];
      assert suggestions[j] in PopularFrom(samples, 0);
    }
    forall cat ensures CountBy(shown, SuggestionCategory, cat) <= PopularPerCategory {
      CountByPrefix(shown, suggestions, SuggestionCategory, cat);
    }
    return GiftResult(shown, Some(true));
  }

  // ---------------------------------------------------------------- the list's profile

  /** What the list's items contribute: the embeddings of those that have one, and the
      category and colour of those among them that are also in the catalogue. */
  datatype Profile = Profile(vectors: seq<seq<real>>, categories: seq<string>, colors: seq<string>)

  function Join(a: Profile, b: Profile): Profile {
    Profile(a.vectors + b.vectors, a.categories + b.categories, a.colors + b.colors)
  }

  /** What one item contributes. (The lookups take the item as given: both ignore
      leading zeros, so this is the same as looking up the zero-stripped id, which is
      what CollectProfile does.) */
  function ItemProfile(svc: Service, item: string): (pr: Profile)
    requires Valid(svc)
    ensures AllOfDim(pr.vectors, svc.dim)
    ensures |pr.categories| == |pr.colors| <= |pr.vectors| <= 1
    ensures pr.vectors == [] <==> GetEmbedding(svc, item).None?
  {
    match GetEmbedding(svc, item)
    case None => Profile([], [], [])
    case Some(v) =>
      match GetProduct(svc.rows, item)
      case None => Profile([v], [], [])
      case Some(p) => Profile([v], [p.category], [p.color])
  }

  lemma ItemProfileIgnoresLeadingZeros(svc: Service, item: string)
    requires Valid(svc)
    ensures ItemProfile(svc, StripZeros(item)) == ItemProfile(svc, item)
  {
    GetEmbeddingIgnoresLeadingZeros(svc, item);
    GetProductIgnoresLeadingZeros(svc.rows, item);
  }

  function ListProfile(svc: Service, items: seq<string>, i: nat): (pr: Profile)
    requires Valid(svc) && i <= |items|
    ensures AllOfDim(pr.vectors, svc.dim)
    ensures |pr.categories| == |pr.colors| <= |pr.vectors| <= |items| - i
    decreases |items| - i
  {
    if i == |items| then Profile([], [], [])
    else Join(ItemProfile(svc, items[i]), ListProfile(svc, items, i + 1))
  }

  lemma JoinEmpty(a: Profile)
    ensures Join(Profile([], [], []), a) == a
  {
    assert [] + a.vectors == a.vectors;
    assert [] + a.categories == a.categories;
    assert [] + a.colors == a.colors;
  }

  lemma JoinAssoc(a: Profile, b: Profile, c: Profile)
    ensures Join(Join(a, b), c) == Join(a, Join(b, c))
  {
    assert (a.vectors + b.vectors) + c.vectors == a.vectors + (b.vectors + c.vectors);
    assert (a.categories + b.categories) + c.categories == a.categories + (b.categories + c.categories);
    assert (a.colors + b.colors) + c.colors == a.colors + (b.colors + c.colors);
  }

  /** The list has a vector exactly when one of its items has an embedding. */
  lemma {:induction false} ListProfileEmpty(svc: Service, items: seq<string>, i: nat)
    requires Valid(svc) && i <= |items|
    ensures ListProfile(svc, items, i).vectors == [] <==> forall j | i <= j < |items| :: GetEmbedding(svc, items[j]).None?
    decreases |items| - i
  {
    if i < |items| {
      ListProfileEmpty(svc, items, i + 1);
    }
  }

  /** Moving one item from the rest of the list into the part collected so far. */
  lemma ListProfileStep(svc: Service, items: seq<string>, i: nat, before: Profile)
    requires Valid(svc) && i < |items|
    ensures Join(before, ListProfile(svc, items, i))
      == Join(Join(before, ItemProfile(svc, StripZeros(items[i]))), ListProfile(svc, items, i + 1))
  {
    ItemProfileIgnoresLeadingZeros(svc, items[i]);
    JoinAssoc(before, ItemProfile(svc, items[i]), ListProfile(svc, items, i + 1));
  }

  /** One pass of the loop: the item's embedding, and its category and colour when it is
      also in the catalogue, appended to what has been collected. */
  method AddItem(svc: Service, pr: Profile, pid: string) returns (next: Profile)
    requires Valid(svc)
    ensures next == Join(pr, ItemProfile(svc, pid))
  {
    next := pr;
    var emb := GetEmbedding(svc, pid);
    if emb.Some? {
      next := next.(vectors := next.vectors + [emb.value]);
      var prod := GetProduct(svc.rows, pid);
      if prod.Some? {
        next := next.(categories := next.categories + [prod.value.category], colors := next.colors + [prod.value.color]);
      } else {
        assert pr.categories + [] == pr.categories && pr.colors + [] == pr.colors;
      }
    } else {
      assert pr.vectors + [] == pr.vectors && pr.categories + [] == pr.categories && pr.colors + [] == pr.colors;
    }
  }

  method CollectProfile(svc: Service, items: seq<string>) returns (pr: Profile)
    requires Valid(svc)
    ensures pr == ListProfile(svc, items, 0)
  {
    pr := Profile([], [], []);
    var i := 0;
    JoinEmpty(ListProfile(svc, items, 0));
    while i < |items|
      invariant i <= |items|
      invariant ListProfile(svc, items, 0) == Join(pr, ListProfile(svc, items, i))
    {
      ListProfileStep(svc, items, i, pr);
      var pid := StripZeros(items[i]);
      pr := AddItem(svc, pr, pid);
      i := i + 1;
    }
  }

  // ---------------------------------------------------------------- most common value

  function Count(xs: seq<string>, x: string): nat
  {
    if xs == [] then 0 else (if xs[0] == x then 1 else 0) + Count(xs[1..], x)
  }

  /** `Counter(xs).most_common(1)[0][0]` sits at position b: its value occurs at least
      as often as any other, and every value met before it occurs strictly less often
      (Counter keeps first-seen order and the maximum keeps the first of equals). */
  ghost predicate MostCommonAt(xs: seq<string>, b: nat) {
    && b < |xs|
    && (forall j | 0 <= j < |xs| :: Count(xs, xs[j]) <= Count(xs, xs[b]))
    && (forall j | 0 <= j < b :: Count(xs, xs[j]) < Count(xs, xs[b]))
  }

  /** The tie-break makes the most common value unique. */
  lemma MostCommonUnique(xs: seq<string>, a: nat, b: nat)
    requires MostCommonAt(xs, a) && MostCommonAt(xs, b)
    ensures a == b
  {
    assert Count(xs, xs[a]) == Count(xs, xs[b]);
  }

  /** The most common value as a function, for stating results. */
  function TopOf(xs: seq<string>): (r: Option<string>)
    ensures r.None? <==> xs == []
  {
    if xs == [] then None else Some(xs[TopIndex(xs, 1, 0)])
  }

  /** Scan from position i with the best so far at position b: the first value of
      highest count. */
  function TopIndex(xs: seq<string>, i: nat, b: nat): (r: nat)
    requires b < i <= |xs|
    ensures r < |xs|
    decreases |xs| - i
  {
    if i == |xs| then b
    else if Count(xs, xs[i]) > Count(xs, xs[b]) then TopIndex(xs, i + 1, i)
    else TopIndex(xs, i + 1, b)
  }

  lemma {:induction false} TopIndexIsMostCommon(xs: seq<string>, i: nat, b: nat)
    requires b < i <= |xs|
    requires forall j | 0 <= j < i :: Count(xs, xs[j]) <= Count(xs, xs[b])
    requires forall j | 0 <= j < b :: Count(xs, xs[j]) < Count(xs, xs[b])
    ensures MostCommonAt(xs, TopIndex(xs, i, b))
    decreases |xs| - i
  {
    if i < |xs| {
      if Count(xs, xs[i]) > Count(xs, xs[b]) {
        TopIndexIsMostCommon(xs, i + 1, i);
      } else {
        TopIndexIsMostCommon(xs, i + 1, b);
      }
    }
  }

  /** TopOf is `Counter(xs).most_common(1)[0][0]`: the value at the most common
      position, which exists for every non-empty list. */
  lemma TopOfIsMostCommon(xs: seq<string>)
    ensures xs != [] ==> exists b: nat :: MostCommonAt(xs, b)
    ensures forall b: nat | MostCommonAt(xs, b) :: TopOf(xs) == Some(xs[b])
  {
    if xs != [] {
      TopIndexIsMostCommon(xs, 1, 0);
      forall b: nat | MostCommonAt(xs, b) ensures TopOf(xs) == Some(xs[b]) {
        MostCommonUnique(xs, b, TopIndex(xs, 1, 0));
      }
    }
  }

  // ---------------------------------------------------------------- gift-list walk

  /** The reason for a list suggestion: the list's top category, else its top colour,
      else that it complements the list. */
  function ListReason(category: string, color: string, topCategory: Option<string>, topColor: Option<string>): (r: GiftReason)
    ensures r == MatchesLove(category) <==> topCategory == Some(category)
    ensures r == FavoriteColor(color) <==> topCategory != Some(category) && topColor == Some(color)
    ensures r == Complements <==> topCategory != Some(category) && topColor != Some(color)
  {
    if topCategory == Some(category) then MatchesLove(category)
    else if topColor == Some(color) then FavoriteColor(color)
    else Complements
  }

  /** What the list walk reads of the request and the list. */
  datatype ListWalk = ListWalk(seenIds: set<string>, diversify: bool, topCategory: Option<string>, topColor: Option<string>)

  function ListSuggestion(w: ListWalk, pid: string, p: Product, score: real): Suggestion {
    Suggestion(pid, p.name, p.category, p.color, p.price, Some(score), ListReason(p.category, p.color, w.topCategory, w.topColor))
  }

  /** From hit i on, with the categories in `cats` already suggested: the hits whose
      stored id is not on the list, that resolve, and (when diversifying) whose category
      is new, stopping after `need` of them. */
  function ListPicks(table: seq<Option<Product>>, ids: seq<string>, cands: seq<Candidate>, w: ListWalk, cats: set<string>, i: nat, need: nat): seq<Pick<Suggestion>>
    requires RowsOf(table, cands) && |ids| == |table| && i <= |cands|
    decreases |cands| - i
  {
    if i == |cands| || need == 0 then []
    else
      var pid := ids[cands[i].idx];
      if pid in w.seenIds then ListPicks(table, ids, cands, w, cats, i + 1, need)
      else match table[cands[i].idx]
        case None => ListPicks(table, ids, cands, w, cats, i + 1, need)
        case Some(p) =>
          if w.diversify && p.category in cats then ListPicks(table, ids, cands, w, cats, i + 1, need)
          else
            [Pick(i, ListSuggestion(w, pid, p, cands[i].score))]
              + ListPicks(table, ids, cands, w, if w.diversify then cats + {p.category} else cats, i + 1, need - 1)
  }

  lemma {:induction false} ListPicksInOrder(table: seq<Option<Product>>, ids: seq<string>, cands: seq<Candidate>, w: ListWalk, cats: set<string>, i: nat, need: nat)
    requires RowsOf(table, cands) && |ids| == |table| && i <= |cands|
    ensures |ListPicks(table, ids, cands, w, cats, i, need)| <= need
    ensures InOrder(ListPicks(table, ids, cands, w, cats, i, need), i, |cands|)
    decreases |cands| - i
  {
    if i < |cands| && need > 0 {
      var pid := ids[cands[i].idx];
      var r := table[cands[i].idx];
      if pid !in w.seenIds && r.Some? && !(w.diversify && r.value.category in cats) {
        var cats' := if w.diversify then cats + {r.value.category} else cats;
        ListPicksInOrder(table, ids, cands, w, cats', i + 1, need - 1);
        InOrderCons(Pick(i, ListSuggestion(w, pid, r.value, cands[i].score)), ListPicks(table, ids, cands, w, cats', i + 1, need - 1), i, |cands|);
      } else {
        ListPicksInOrder(table, ids, cands, w, cats, i + 1, need);
        InOrderWeaken(ListPicks(table, ids, cands, w, cats, i + 1, need), i, |cands|);
      }
    }
  }

  /** A list suggestion: a hit not on the list, suggested as the product it resolves
      to, under its stored id, with its own score and the list reason. */
  ghost predicate ListKept(table: seq<Option<Product>>, ids: seq<string>, cands: seq<Candidate>, w: ListWalk, cats: set<string>, p: Pick<Suggestion>)
    requires RowsOf(table, cands) && |ids| == |table|
  {
    && p.pos < |cands|
    && ids[cands[p.pos].idx] !in w.seenIds
    && table[cands[p.pos].idx].Some?
    && p.item == ListSuggestion(w, ids[cands[p.pos].idx], table[cands[p.pos].idx].value, cands[p.pos].score)
    && (w.diversify ==> p.item.category !in cats)
  }

  /** Every list suggestion is kept as above. */
  lemma {:induction false} ListPicksSound(table: seq<Option<Product>>, ids: seq<string>, cands: seq<Candidate>, w: ListWalk, cats: set<string>, i: nat, need: nat)
    requires RowsOf(table, cands) && |ids| == |table| && i <= |cands|
    ensures forall p | p in ListPicks(table, ids, cands, w, cats, i, need) :: ListKept(table, ids, cands, w, cats, p)
    decreases |cands| - i
  {
    if i < |cands| && need > 0 {
      var pid := ids[cands[i].idx];
      var r := table[cands[i].idx];
      if pid !in w.seenIds && r.Some? && !(w.diversify && r.value.category in cats) {
        var cats' := if w.diversify then cats + {r.value.category} else cats;
        ListPicksSound(table, ids, cands, w, cats', i + 1, need - 1);
        assert ListKept(table, ids, cands, w, cats, Pick(i, ListSuggestion(w, pid, r.value, cands[i].score)));
        forall p | p in ListPicks(table, ids, cands, w, cats', i + 1, need - 1) ensures ListKept(table, ids, cands, w, cats, p) {
          assert ListKept(table, ids, cands, w, cats', p);
        }
      } else {
        ListPicksSound(table, ids, cands, w, cats, i + 1, need);
      }
    }
  }

  /** When diversifying, no two list suggestions share a category. */
  lemma {:induction false} ListPicksDistinct(table: seq<Option<Product>>, ids: seq<string>, cands: seq<Candidate>, w: ListWalk, cats: set<string>, i: nat, need: nat)
    requires RowsOf(table, cands) && |ids| == |table| && i <= |cands| && w.diversify
    ensures forall a, b | 0 <= a < b < |ListPicks(table, ids, cands, w, cats, i, need)| ::
      ListPicks(table, ids, cands, w, cats, i, need)[a].item.category != ListPicks(table, ids, cands, w, cats, i, need)[b].item.category
    decreases |cands| - i
  {
    if i < |cands| && need > 0 {
      var pid := ids[cands[i].idx];
      var r := table[cands[i].idx];
      if pid !in w.seenIds && r.Some? && r.value.category !in cats {
        var cats' := cats + {r.value.category};
        ListPicksDistinct(table, ids, cands, w, cats', i + 1, need - 1);
        ListPicksSound(table, ids, cands, w, cats', i + 1, need - 1);
        var rest := ListPicks(table, ids, cands, w, cats', i + 1, need - 1);
        var ps := [Pick(i, ListSuggestion(w, pid, r.value, cands[i].score))] + rest;
        assert ListPicks(table, ids, cands, w, cats, i, need) == ps;
        forall a, b | 0 <= a < b < |ps| ensures ps[a].item.category != ps[b].item.category {
          assert ps[b] == rest[b - 1];
          assert rest[b - 1] in rest;
          if a > 0 {
            assert ps[a] == rest[a - 1];
          }
        }
      } else {
        ListPicksDistinct(table, ids, cands, w, cats, i + 1, need);
      }
    }
  }

  /** Every suggestion carries a score, and the scores do not increase. */
  predicate BestFirst(s: seq<Suggestion>) {
    forall a, b | 0 <= a < b < |s| :: s[a].score.Some? && s[b].score.Some? && s[a].score.value >= s[b].score.value
  }

  /** The list walk over the search hits. */
  method ListWalkLoop(svc: Service, cands: seq<Candidate>, w: ListWalk, k: int) returns (suggestions: seq<Suggestion>)
    requires RowsOf(ProductTable(svc), cands)
    ensures suggestions == Items(ListPicks(ProductTable(svc), svc.idxToId, cands, w, {}, 0, Cap(k)))
    ensures |suggestions| <= Cap(k)
    ensures forall j | 0 <= j < |suggestions| :: suggestions[j].productId !in w.seenIds
    ensures forall j | 0 <= j < |suggestions| ::
      suggestions[j].reason == ListReason(suggestions[j].category, suggestions[j].color, w.topCategory, w.topColor)
    ensures w.diversify ==> forall a, b | 0 <= a < b < |suggestions| :: suggestions[a].category != suggestions[b].category
    ensures SortedByScore(cands) ==> BestFirst(suggestions)
  {
    ghost var table := ProductTable(svc);
    ghost var picks: seq<Pick<Suggestion>> := [];
    var cats: set<string> := {};
    suggestions := [];
    var i := 0;
    while i < |cands|
      invariant i <= |cands|
      invariant |picks| < Cap(k)
      invariant suggestions == Items(picks)
      invariant ListPicks(table, svc.idxToId, cands, w, {}, 0, Cap(k))
        == picks + ListPicks(table, svc.idxToId, cands, w, cats, i, Cap(k) - |picks|)
    {
      var c := cands[i];
      var pid := svc.idxToId[c.idx];
      if pid in w.seenIds {
        i := i + 1;
        continue;
      }
      var prod := ProductAt(svc, c.idx);
      if prod.None? {
        i := i + 1;
        continue;
      }
      var p := prod.value;
      if w.diversify && p.category in cats {
        i := i + 1;
        continue;
      }
      var s := ListSuggestion(w, pid, p, c.score);
      ghost var x := Pick(i, s);
      ghost var need := Cap(k) - |picks|;
      ghost var cats' := if w.diversify then cats + {p.category} else cats;
      assert ListPicks(table, svc.idxToId, cands, w, cats, i, need)
        == [x] + ListPicks(table, svc.idxToId, cands, w, cats', i + 1, need - 1);
      Shift(picks, x, ListPicks(table, svc.idxToId, cands, w, cats', i + 1, need - 1));
      ItemsAppend(picks, x);
      picks := picks + [x];
      suggestions := suggestions + [s];
      if w.diversify {
        cats := cats + {p.category};
      }
      i := i + 1;
      if |suggestions| >= k {
        assert ListPicks(table, svc.idxToId, cands, w, cats, i, Cap(k) - |picks|) == [];
        break;
      }
    }
    ListWalkFacts(table, svc.idxToId, cands, w, Cap(k));
  }

  /** List suggestions: at most `need`, none of them on the list, best first, with the
      list reason, and of distinct categories when diversifying. */
  lemma ListWalkFacts(table: seq<Option<Product>>, ids: seq<string>, cands: seq<Candidate>, w: ListWalk, need: nat)
    requires RowsOf(table, cands) && |ids| == |table|
    ensures var s := Items(ListPicks(table, ids, cands, w, {}, 0, need));
      && |s| <= need
      && (forall j | 0 <= j < |s| :: s[j].productId !in w.seenIds)
      && (forall j | 0 <= j < |s| :: s[j].reason == ListReason(s[j].category, s[j].color, w.topCategory, w.topColor))
      && (w.diversify ==> forall a, b | 0 <= a < b < |s| :: s[a].category != s[b].category)
      && (SortedByScore(cands) ==> BestFirst(s))
  {
    var ps := ListPicks(table, ids, cands, w, {}, 0, need);
    var s := Items(ps);
    ListPicksInOrder(table, ids, cands, w, {}, 0, need);
    ListPicksSound(table, ids, cands, w, {}, 0, need);
    if w.diversify {
      ListPicksDistinct(table, ids, cands, w, {}, 0, need);
    }
    forall j | 0 <= j < |s|
      ensures s[j].productId !in w.seenIds && s[j].reason == ListReason(s[j].category, s[j].color, w.topCategory, w.topColor)
      ensures s[j].score == Some(cands[ps[j].pos].score)
    {
      assert ps[j] in ps;
    }
    if SortedByScore(cands) {
      PicksDescend(cands, ps);
    }
  }

  /** The ids of the list, zero-stripped. */
  function ListIds(items: seq<string>): (ids: set<string>)
    ensures forall q | q in items :: StripZeros(q) in ids
  {
    set q | q in items :: StripZeros(q)
  }

  /** The list path once the list has vectors; `invNorm` is the positive factor
      `1 / (norm + 1e-8)` of the list's mean vector. */
  method ListSuggestions(svc: Service, items: seq<string>, pr: Profile, k: int, diversify: bool, invNorm: real)
    returns (suggestions: seq<Suggestion>)
    requires Valid(svc) && invNorm > 0.0 && pr.vectors != [] && AllOfDim(pr.vectors, svc.dim)
    ensures suggestions == Items(ListPicks(ProductTable(svc), svc.idxToId,
      SearchSimilar(svc.embeddings, Scale(invNorm, Mean(pr.vectors, svc.dim)), k * SearchFactor),
      ListWalk(ListIds(items), diversify, TopOf(pr.categories), TopOf(pr.colors)), {}, 0, Cap(k)))
    ensures |suggestions| <= Cap(k)
    ensures forall j, q | 0 <= j < |suggestions| && q in items :: suggestions[j].productId != StripZeros(q)
    ensures forall j | 0 <= j < |suggestions| ::
      suggestions[j].reason == ListReason(suggestions[j].category, suggestions[j].color, TopOf(pr.categories), TopOf(pr.colors))
    ensures diversify ==> forall a, b | 0 <= a < b < |suggestions| :: suggestions[a].category != suggestions[b].category
    ensures BestFirst(suggestions)
  {
    var taste := Scale(invNorm, Mean(pr.vectors, svc.dim));
    var cands := SearchSimilar(svc.embeddings, taste, k * SearchFactor);
    SearchHits(svc, taste, k * SearchFactor);
    var seenIds := ListIds(items);
    var topCategory := TopOf(pr.categories);
    var topColor := TopOf(pr.colors);
    var w := ListWalk(seenIds, diversify, topCategory, topColor);
    suggestions := ListWalkLoop(svc, cands, w, k);
  }

  /** `get_gift_suggestions`. `samples` is what the empty-list path samples. */
  method GetGiftSuggestions(svc: Service, items: seq<string>, k: int, diversify: bool, samples: seq<seq<Row>>, invNorm: real)
    returns (r: GiftResult)
    requires Valid(svc) && invNorm > 0.0
    requires |samples| == |GiftCategories|
    requires forall c | 0 <= c < |samples| :: |samples[c]| <= PopularPerCategory
    requires forall c, j | 0 <= c < |samples| && 0 <= j < |samples[c]| :: samples[c][j].productType == GiftCategories[c]
    ensures r.isEmptyList == Some(ListProfile(svc, items, 0).vectors == [])
    ensures r.isEmptyList == Some(true) ==> r.suggestions == PyPrefix(PopularFrom(samples, 0), k)
    ensures r.isEmptyList == Some(true) ==> forall cat :: CountBy(r.suggestions, SuggestionCategory, cat) <= PopularPerCategory
    ensures r.isEmptyList == Some(false) ==>
      var pr := ListProfile(svc, items, 0);
      r.suggestions == Items(ListPicks(ProductTable(svc), svc.idxToId,
        SearchSimilar(svc.embeddings, Scale(invNorm, Mean(pr.vectors, svc.dim)), k * SearchFactor),
        ListWalk(ListIds(items), diversify, TopOf(pr.categories), TopOf(pr.colors)), {}, 0, Cap(k)))
    ensures r.isEmptyList == Some(false) ==> |r.suggestions| <= Cap(k)
    ensures r.isEmptyList == Some(false) ==> forall j, q | 0 <= j < |r.suggestions| && q in items ::
      r.suggestions[j].productId != StripZeros(q)
    ensures r.isEmptyList == Some(false) && diversify ==> forall a, b | 0 <= a < b < |r.suggestions| ::
      r.suggestions[a].category != r.suggestions[b].category
    ensures r.isEmptyList == Some(false) ==> BestFirst(r.suggestions)
    ensures r.isEmptyList == Some(false) ==> forall j | 0 <= j < |r.suggestions| ::
      var pr := ListProfile(svc, items, 0);
      r.suggestions[j].reason == ListReason(r.suggestions[j].category, r.suggestions[j].color, TopOf(pr.categories), TopOf(pr.colors))
  {
    var pr := CollectProfile(svc, items);
    if |pr.vectors| == 0 {
      r := PopularGifts(samples, k);
    } else {
      var suggestions := ListSuggestions(svc, items, pr, k, diversify, invNorm);
      r := GiftResult(suggestions, Some(false));
    }
  }

  // ---------------------------------------------------------------- recipient walk

  /** `price_min` / `price_max` filter only when given and non-zero. */
  predicate Truthy(x: Option<real>) { x.Some? && x.value != 0.0 }

  predicate GiftPasses(p: Product, priceMin: Option<real>, priceMax: Option<real>) {
    && p.category !in ExcludedCategories
    && (Truthy(priceMin) ==> p.price >= priceMin.value)
    && (Truthy(priceMax) ==> p.price <= priceMax.value)
  }

  function StyleSuggestion(pid: string, p: Product, score: real): Suggestion {
    Suggestion(pid, p.name, p.category, p.color, p.price, Some(score), MatchesStyle(score))
  }

  /** From hit i on, with the categories in `cats` already suggested: the hits that
      resolve, pass the exclusions and price filters and bring a new category, stopping
      after `need` of them. */
  function UserPicks(table: seq<Option<Product>>, ids: seq<string>, cands: seq<Candidate>, priceMin: Option<real>, priceMax: Option<real>, cats: set<string>, i: nat, need: nat): seq<Pick<Suggestion>>
    requires RowsOf(table, cands) && |ids| == |table| && i <= |cands|
    decreases |cands| - i
  {
    if i == |cands| || need == 0 then []
    else match table[cands[i].idx]
      case None => UserPicks(table, ids, cands, priceMin, priceMax, cats, i + 1, need)
      case Some(p) =>
        if !GiftPasses(p, priceMin, priceMax) || p.category in cats then UserPicks(table, ids, cands, priceMin, priceMax, cats, i + 1, need)
        else
          [Pick(i, StyleSuggestion(ids[cands[i].idx], p, cands[i].score))]
            + UserPicks(table, ids, cands, priceMin, priceMax, cats + {p.category}, i + 1, need - 1)
  }

  lemma {:induction false} UserPicksInOrder(table: seq<Option<Product>>, ids: seq<string>, cands: seq<Candidate>, priceMin: Option<real>, priceMax: Option<real>, cats: set<string>, i: nat, need: nat)
    requires RowsOf(table, cands) && |ids| == |table| && i <= |cands|
    ensures |UserPicks(table, ids, cands, priceMin, priceMax, cats, i, need)| <= need
    ensures InOrder(UserPicks(table, ids, cands, priceMin, priceMax, cats, i, need), i, |cands|)
    decreases |cands| - i
  {
    if i < |cands| && need > 0 {
      var r := table[cands[i].idx];
      if r.Some? && GiftPasses(r.value, priceMin, priceMax) && r.value.category !in cats {
        UserPicksInOrder(table, ids, cands, priceMin, priceMax, cats + {r.value.category}, i + 1, need - 1);
        InOrderCons(Pick(i, StyleSuggestion(ids[cands[i].idx], r.value, cands[i].score)),
          UserPicks(table, ids, cands, priceMin, priceMax, cats + {r.value.category}, i + 1, need - 1), i, |cands|);
      } else {
        UserPicksInOrder(table, ids, cands, priceMin, priceMax, cats, i + 1, need);
        InOrderWeaken(UserPicks(table, ids, cands, priceMin, priceMax, cats, i + 1, need), i, |cands|);
      }
    }
  }

  /** A recipient suggestion: a resolved hit passing the filters, of a category not yet
      suggested, with its own score as affinity. */
  ghost predicate UserKept(table: seq<Option<Product>>, ids: seq<string>, cands: seq<Candidate>, priceMin: Option<real>, priceMax: Option<real>, cats: set<string>, p: Pick<Suggestion>)
    requires RowsOf(table, cands) && |ids| == |table|
  {
    && p.pos < |cands|
    && table[cands[p.pos].idx].Some?
    && GiftPasses(table[cands[p.pos].idx].value, priceMin, priceMax)
    && p.item == StyleSuggestion(ids[cands[p.pos].idx], table[cands[p.pos].idx].value, cands[p.pos].score)
    && p.item.category !in cats
  }

  /** Every recipient suggestion is kept as above. */
  lemma {:induction false} UserPicksSound(table: seq<Option<Product>>, ids: seq<string>, cands: seq<Candidate>, priceMin: Option<real>, priceMax: Option<real>, cats: set<string>, i: nat, need: nat)
    requires RowsOf(table, cands) && |ids| == |table| && i <= |cands|
    ensures forall p | p in UserPicks(table, ids, cands, priceMin, priceMax, cats, i, need) :: UserKept(table, ids, cands, priceMin, priceMax, cats, p)
    decreases |cands| - i
  {
    if i < |cands| && need > 0 {
      var r := table[cands[i].idx];
      if r.Some? && GiftPasses(r.value, priceMin, priceMax) && r.value.category !in cats {
        var cats' := cats + {r.value.category};
        UserPicksSound(table, ids, cands, priceMin, priceMax, cats', i + 1, need - 1);
        assert UserKept(table, ids, cands, priceMin, priceMax, cats, Pick(i, StyleSuggestion(ids[cands[i].idx], r.value, cands[i].score)));
        forall p | p in UserPicks(table, ids, cands, priceMin, priceMax, cats', i + 1, need - 1)
          ensures UserKept(table, ids, cands, priceMin, priceMax, cats, p)
        {
          assert UserKept(table, ids, cands, priceMin, priceMax, cats', p);
        }
      } else {
        UserPicksSound(table, ids, cands, priceMin, priceMax, cats, i + 1, need);
      }
    }
  }

  /** No two recipient suggestions share a category. */
  lemma {:induction false} UserPicksDistinct(table: seq<Option<Product>>, ids: seq<string>, cands: seq<Candidate>, priceMin: Option<real>, priceMax: Option<real>, cats: set<string>, i: nat, need: nat)
    requires RowsOf(table, cands) && |ids| == |table| && i <= |cands|
    ensures forall a, b | 0 <= a < b < |UserPicks(table, ids, cands, priceMin, priceMax, cats, i, need)| ::
      UserPicks(table, ids, cands, priceMin, priceMax, cats, i, need)[a].item.category
        != UserPicks(table, ids, cands, priceMin, priceMax, cats, i, need)[b].item.category
    decreases |cands| - i
  {
    if i < |cands| && need > 0 {
      var r := table[cands[i].idx];
      if r.Some? && GiftPasses(r.value, priceMin, priceMax) && r.value.category !in cats {
        var cats' := cats + {r.value.category};
        UserPicksDistinct(table, ids, cands, priceMin, priceMax, cats', i + 1, need - 1);
        UserPicksSound(table, ids, cands, priceMin, priceMax, cats', i + 1, need - 1);
        var rest := UserPicks(table, ids, cands, priceMin, priceMax, cats', i + 1, need - 1);
        var ps := [Pick(i, StyleSuggestion(ids[cands[i].idx], r.value, cands[i].score))] + rest;
        assert UserPicks(table, ids, cands, priceMin, priceMax, cats, i, need) == ps;
        forall a, b | 0 <= a < b < |ps| ensures ps[a].item.category != ps[b].item.category {
          assert ps[b] == rest[b - 1];
          assert rest[b - 1] in rest;
          if a > 0 {
            assert ps[a] == rest[a - 1];
          }
        }
      } else {
        UserPicksDistinct(table, ids, cands, priceMin, priceMax, cats, i + 1, need);
      }
    }
  }

  /** The recipient walk over the search hits. */
  method UserWalk(svc: Service, cands: seq<Candidate>, priceMin: Option<real>, priceMax: Option<real>, k: int) returns (suggestions: seq<Suggestion>)
    requires RowsOf(ProductTable(svc), cands)
    ensures suggestions == Items(UserPicks(ProductTable(svc), svc.idxToId, cands, priceMin, priceMax, {}, 0, Cap(k)))
  {
    ghost var table := ProductTable(svc);
    ghost var picks: seq<Pick<Suggestion>> := [];
    var cats: set<string> := {};
    suggestions := [];
    var i := 0;
    while i < |cands|
      invariant i <= |cands|
      invariant |picks| < Cap(k)
      invariant suggestions == Items(picks)
      invariant UserPicks(table, svc.idxToId, cands, priceMin, priceMax, {}, 0, Cap(k))
        == picks + UserPicks(table, svc.idxToId, cands, priceMin, priceMax, cats, i, Cap(k) - |picks|)
    {
      var c := cands[i];
      var pid := svc.idxToId[c.idx];
      var prod := ProductAt(svc, c.idx);
      if prod.None? {
        i := i + 1;
        continue;
      }
      var p := prod.value;
      if p.category in ExcludedCategories {
        i := i + 1;
        continue;
      }
      if Truthy(priceMin) && p.price < priceMin.value {
        i := i + 1;
        continue;
      }
      if Truthy(priceMax) && p.price > priceMax.value {
        i := i + 1;
        continue;
      }
      if p.category in cats {
        i := i + 1;
        continue;
      }
      var s := StyleSuggestion(pid, p, c.score);
      ghost var x := Pick(i, s);
      ghost var need := Cap(k) - |picks|;
      assert UserPicks(table, svc.idxToId, cands, priceMin, priceMax, cats, i, need)
        == [x] + UserPicks(table, svc.idxToId, cands, priceMin, priceMax, cats + {p.category}, i + 1, need - 1);
      Shift(picks, x, UserPicks(table, svc.idxToId, cands, priceMin, priceMax, cats + {p.category}, i + 1, need - 1));
      ItemsAppend(picks, x);
      picks := picks + [x];
      suggestions := suggestions + [s];
      cats := cats + {p.category};
      i := i + 1;
      if |suggestions| >= k {
        assert UserPicks(table, svc.idxToId, cands, priceMin, priceMax, cats, i, Cap(k) - |picks|) == [];
        break;
      }
    }
  }

  /** Recipient suggestions: at most `need`, none of an excluded category, within the
      price filters, of distinct categories, best first, each with its affinity as the
      reason. */
  lemma UserWalkFacts(table: seq<Option<Product>>, ids: seq<string>, cands: seq<Candidate>, priceMin: Option<real>, priceMax: Option<real>, need: nat)
    requires RowsOf(table, cands) && |ids| == |table|
    ensures var s := Items(UserPicks(table, ids, cands, priceMin, priceMax, {}, 0, need));
      && |s| <= need
      && (forall j | 0 <= j < |s| :: s[j].category !in ExcludedCategories)
      && (forall j | 0 <= j < |s| :: (Truthy(priceMin) ==> s[j].price >= priceMin.value) && (Truthy(priceMax) ==> s[j].price <= priceMax.value))
      && (forall j | 0 <= j < |s| :: s[j].score.Some? && s[j].reason == MatchesStyle(s[j].score.value))
      && (forall a, b | 0 <= a < b < |s| :: s[a].category != s[b].category)
      && (SortedByScore(cands) ==> BestFirst(s))
  {
    var ps := UserPicks(table, ids, cands, priceMin, priceMax, {}, 0, need);
    var s := Items(ps);
    UserPicksInOrder(table, ids, cands, priceMin, priceMax, {}, 0, need);
    UserPicksSound(table, ids, cands, priceMin, priceMax, {}, 0, need);
    UserPicksDistinct(table, ids, cands, priceMin, priceMax, {}, 0, need);
    forall j | 0 <= j < |s| ensures UserKept(table, ids, cands, priceMin, priceMax, {}, ps[j]) {
      assert ps[j] in ps;
    }
    if SortedByScore(cands) {
      PicksDescend(cands, ps);
    }
  }

  /** `get_gift_suggestions_for_user`: without a taste vector, the empty-list answer. */
  method GetGiftSuggestionsForUser(svc: Service, userId: string, k: int, priceMin: Option<real>, priceMax: Option<real>, samples: seq<seq<Row>>)
    returns (r: GiftResult)
    requires Valid(svc)
    requires |samples| == |GiftCategories|
    requires forall c | 0 <= c < |samples| :: |samples[c]| <= PopularPerCategory
    requires forall c, j | 0 <= c < |samples| && 0 <= j < |samples[c]| :: samples[c][j].productType == GiftCategories[c]
    ensures userId !in svc.tasteVectors ==> r == GiftResult(PyPrefix(PopularFrom(samples, 0), k), Some(true))
    ensures userId in svc.tasteVectors ==> r.isEmptyList.None?
    ensures userId in svc.tasteVectors ==>
      r.suggestions == Items(UserPicks(ProductTable(svc), svc.idxToId,
        SearchSimilar(svc.embeddings, svc.tasteVectors[userId], k * SearchFactor), priceMin, priceMax, {}, 0, Cap(k)))
    ensures userId in svc.tasteVectors ==> |r.suggestions| <= Cap(k)
    ensures userId in svc.tasteVectors ==> forall j | 0 <= j < |r.suggestions| ::
      r.suggestions[j].category !in ExcludedCategories
      && (Truthy(priceMin) ==> r.suggestions[j].price >= priceMin.value)
      && (Truthy(priceMax) ==> r.suggestions[j].price <= priceMax.value)
    ensures userId in svc.tasteVectors ==> forall a, b | 0 <= a < b < |r.suggestions| ::
      r.suggestions[a].category != r.suggestions[b].category
    ensures userId in svc.tasteVectors ==> forall j | 0 <= j < |r.suggestions| ::
      r.suggestions[j].score.Some? && r.suggestions[j].reason == MatchesStyle(r.suggestions[j].score.value)
    ensures userId in svc.tasteVectors ==> BestFirst(r.suggestions)
  {
    if userId !in svc.tasteVectors {
      r := PopularGifts(samples, k);
      return;
    }
    var taste := svc.tasteVectors[userId];
    var cands := SearchSimilar(svc.embeddings, taste, k * SearchFactor);
    SearchHits(svc, taste, k * SearchFactor);
    var suggestions := UserWalk(svc, cands, priceMin, priceMax, k);
    UserWalkFacts(ProductTable(svc), svc.idxToId, cands, priceMin, priceMax, Cap(k));
    return GiftResult(suggestions, None);
  }
}
