/** What every router's candidate walk shares: accepted items remembered with the
    position of the search hit they came from, the early stop after the k-th accepted
    item, and Python's prefix slice. */
module Walks {
  import opened Embeddings

  /** An accepted item and the position, in the walked list, of the entry it came from. */
  datatype Pick<T> = Pick(pos: nat, item: T)

  function Items<T>(ps: seq<Pick<T>>): (r: seq<T>)
    ensures |r| == |ps| && forall j | 0 <= j < |ps| :: r[j] == ps[j].item
  {
    seq(|ps|, j requires 0 <= j < |ps| => ps[j].item)
  }

  lemma ItemsAppend<T>(ps: seq<Pick<T>>, p: Pick<T>)
    ensures Items(ps + [p]) == Items(ps) + [p.item]
  {
  }

  /** Moving one accepted pick from the pending walk to the kept list. */
  lemma Shift<T>(done: seq<T>, x: T, rest: seq<T>)
    ensures done + ([x] + rest) == (done + [x]) + rest
  {
  }

  /** Some pick came from position p. */
  predicate Picked<T>(ps: seq<Pick<T>>, p: nat) {
    |ps| > 0 && (ps[0].pos == p || Picked(ps[1..], p))
  }

  /** Positions lie in [lo, n) and strictly increase: the picks form a subsequence of
      the walked list, in its order. */
  ghost predicate InOrder<T>(ps: seq<Pick<T>>, lo: nat, n: nat) {
    && (forall j | 0 <= j < |ps| :: lo <= ps[j].pos < n)
    && (forall a, b | 0 <= a < b < |ps| :: ps[a].pos < ps[b].pos)
  }

  lemma InOrderCons<T>(p: Pick<T>, ps: seq<Pick<T>>, lo: nat, n: nat)
    requires lo <= p.pos < n && InOrder(ps, p.pos + 1, n)
    ensures InOrder([p] + ps, lo, n)
  {
  }

  lemma InOrderWeaken<T>(ps: seq<Pick<T>>, lo: nat, n: nat)
    requires InOrder(ps, lo + 1, n)
    ensures InOrder(ps, lo, n)
  {
  }

  /** A walk that appends and then stops once it holds k items keeps k items for k >= 1
      and a single item otherwise. */
  function Cap(k: int): nat {
    if k >= 1 then k else 1
  }

  /** Python's `s[:k]`: the first k elements, or all but the last -k for negative k. */
  function PyPrefix<T>(s: seq<T>, k: int): (r: seq<T>)
    ensures r <= s
    ensures k >= 0 ==> |r| == if k < |s| then k else |s|
  {
    if k >= 0 then (if k < |s| then s[..k] else s)
    else if |s| + k > 0 then s[..|s| + k]
    else []
  }

  /** How many elements of xs have key c. */
  function CountBy<T>(xs: seq<T>, key: T -> string, c: string): nat {
    if xs == [] then 0 else (if key(xs[0]) == c then 1 else 0) + CountBy(xs[1..], key, c)
  }

  lemma {:induction false} CountByAppend<T>(a: seq<T>, b: seq<T>, key: T -> string, c: string)
    ensures CountBy(a + b, key, c) == CountBy(a, key, c) + CountBy(b, key, c)
  {
    if a == [] {
      assert a + b == b;
    } else {
      assert (a + b)[1..] == a[1..] + b;
      CountByAppend(a[1..], b, key, c);
    }
  }

  /** A prefix holds no more elements of a key than the whole. */
  lemma CountByPrefix<T>(a: seq<T>, b: seq<T>, key: T -> string, c: string)
    requires a <= b
    ensures CountBy(a, key, c) <= CountBy(b, key, c)
  {
    assert b == a + b[|a|..];
    CountByAppend(a, b[|a|..], key, c);
  }

  /** Picks taken in order from a best-first candidate list carry non-increasing scores. */
  lemma PicksDescend<T>(cands: seq<Candidate>, ps: seq<Pick<T>>)
    requires SortedByScore(cands) && InOrder(ps, 0, |cands|)
    ensures forall a, b | 0 <= a < b < |ps| :: cands[ps[a].pos].score >= cands[ps[b].pos].score
  {
  }

  /** Every candidate names a row of the product table. */
  ghost predicate RowsOf(table: seq<Option<Product>>, cands: seq<Candidate>) {
    forall j | 0 <= j < |cands| :: cands[j].idx < |table|
  }

  /** Every resolved row carries the id stored for it. */
  ghost predicate IdsMatch(table: seq<Option<Product>>, ids: seq<string>) {
    |table| == |ids| && forall i | 0 <= i < |table| && table[i].Some? :: table[i].value.id == ids[i]
  }

  /** What the routers use of a search over the loaded matrix. */
  lemma SearchHits(svc: Service, q: seq<real>, k: int)
    requires Valid(svc) && |q| == svc.dim
    ensures RowsOf(ProductTable(svc), SearchSimilar(svc.embeddings, q, k))
    ensures SortedByScore(SearchSimilar(svc.embeddings, q, k))
  {
    SearchSimilarShape(svc.embeddings, q, k);
    SearchSimilarSorted(svc.embeddings, q, k);
  }
}
