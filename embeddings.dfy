/** The embedding service: the loaded product table, the embedding matrix with its
    id <-> row mappings, taste vectors, popularity and trending lists, and the three
    queries the routers make of it (id normalisation, product and embedding lookup,
    exhaustive top-k scoring). The tables are loaded once and never updated, so the
    service is a value. */
module Embeddings {

  datatype Option<T> = None | Some(value: T)

  /** A router's answer, or the error message it returns instead. */
  datatype Result<T> = Ok(value: T) | Err(message: string)

  /** A row of the product table, as loaded. Columns that a table may lack are optional. */
  datatype Row = Row(
    id: string,
    name: string,
    productType: string,
    colourGroup: string,
    price: Option<real>,
    indexName: Option<string>,
    imageUrl: Option<string>,
    productUrl: Option<string>)

  /** The product record handed to the routers. */
  datatype Product = Product(
    id: string,
    name: string,
    category: string,
    color: string,
    price: real,
    brand: string,
    imageUrl: string,
    productUrl: string)

  /** An entry of a trending list: a bare id, or a record that may carry `product_id`.
      `text` is the record's own string form, used as the id when `product_id` is absent. */
  datatype TrendEntry = IdEntry(id: string) | RecordEntry(productId: Option<string>, text: string)

  datatype Service = Service(
    dim: nat,
    embeddings: seq<seq<real>>,
    idToIdx: map<string, nat>,
    idxToId: seq<string>,
    rows: seq<Row>,
    tasteVectors: map<string, seq<real>>,
    popular: seq<string>,
    trending: map<string, seq<TrendEntry>>)

  /** One search hit: a row of the embedding matrix and its score. */
  datatype Candidate = Candidate(idx: nat, score: real)

  const DefaultPrice: real := 49.99

  /** The loaded tables agree with each other: one id per embedding row, every row and
      every taste vector of the same dimension, every mapped row present, and the ids of
      the row index stored in normalised (zero-stripped) form. */
  ghost predicate Valid(svc: Service) {
    && |svc.idxToId| == |svc.embeddings|
    && (forall i | 0 <= i < |svc.embeddings| :: |svc.embeddings[i]| == svc.dim)
    && (forall id | id in svc.idToIdx :: svc.idToIdx[id] < |svc.embeddings|)
    && (forall u | u in svc.tasteVectors :: |svc.tasteVectors[u]| == svc.dim)
    && (forall i | 0 <= i < |svc.idxToId| :: StripZeros(svc.idxToId[i]) == svc.idxToId[i])
  }

  // ---------------------------------------------------------------- id normalisation

  /** `lstrip("0")`: drops every leading '0'. */
  function StripZeros(s: string): (r: string)
    ensures |r| <= |s|
  {
    if |s| > 0 && s[0] == '0' then StripZeros(s[1..]) else s
  }

  /** The result is a suffix of the input that does not start with '0', and everything
      dropped was '0'. */
  lemma {:induction false} StripZerosSpec(s: string)
    ensures var r := StripZeros(s);
      && r == s[|s| - |r|..]
      && (r == [] || r[0] != '0')
      && (forall i | 0 <= i < |s| - |r| :: s[i] == '0')
  {
    if |s| > 0 && s[0] == '0' {
      StripZerosSpec(s[1..]);
      var r := StripZeros(s);
      assert s[1..][|s| - 1 - |r|..] == s[|s| - |r|..];
      forall i | 0 <= i < |s| - |r| ensures s[i] == '0' {
        if i > 0 {
          assert s[i] == s[1..][i - 1];
        }
      }
    }
  }

  lemma {:induction false} StripZerosIdempotent(s: string)
    ensures StripZeros(StripZeros(s)) == StripZeros(s)
  {
    if |s| > 0 && s[0] == '0' {
      StripZerosIdempotent(s[1..]);
    }
  }

  /** The three properties of StripZerosSpec determine the result. */
  lemma {:induction false} StripZerosUnique(s: string, t: string)
    requires |t| <= |s| && t == s[|s| - |t|..]
    requires t == [] || t[0] != '0'
    requires forall i | 0 <= i < |s| - |t| :: s[i] == '0'
    ensures t == StripZeros(s)
  {
    if |s| > |t| {
      assert s[0] == '0';
      assert s[1..][|s| - 1 - |t|..] == s[|s| - |t|..];
      forall i | 0 <= i < |s| - 1 - |t| ensures s[1..][i] == '0' {
        assert s[1..][i] == s[i + 1];
      }
      StripZerosUnique(s[1..], t);
    } else {
      assert t == s;
    }
  }

  // ---------------------------------------------------------------- product lookup

  function FindRowFrom(rows: seq<Row>, id: string, i: nat): (r: Option<nat>)
    requires i <= |rows|
    ensures r.None? <==> forall j | i <= j < |rows| :: rows[j].id != id
    ensures r.Some? ==> i <= r.value < |rows| && rows[r.value].id == id
    ensures r.Some? ==> forall j | i <= j < r.value :: rows[j].id != id
    decreases |rows| - i
  {
    if i == |rows| then None
    else if rows[i].id == id then Some(i)
    else FindRowFrom(rows, id, i + 1)
  }

  /** The record built from a row, with the defaults for the optional columns. */
  function ToProduct(row: Row): Product {
    Product(
      row.id, row.name, row.productType, row.colourGroup,
      match row.price case Some(p) => p case None => DefaultPrice,
      match row.indexName case Some(b) => b case None => "",
      match row.imageUrl case Some(u) => u case None => "",
      match row.productUrl case Some(u) => u case None => "")
  }

  /** `get_product`: the product of the first row whose id is the zero-stripped `pid`. */
  function GetProduct(rows: seq<Row>, pid: string): (r: Option<Product>)
    ensures r.Some? ==> r.value.id == StripZeros(pid)
  {
    var f := FindRowFrom(rows, StripZeros(pid), 0);
    if f.None? then None else Some(ToProduct(rows[f.value]))
  }

  /** Lookup fails exactly when no row has the zero-stripped id. */
  lemma GetProductNone(rows: seq<Row>, pid: string)
    ensures GetProduct(rows, pid).None? <==> forall i | 0 <= i < |rows| :: rows[i].id != StripZeros(pid)
  {
  }

  /** A found product is built from the first matching row, with the column defaults. */
  lemma GetProductFirstRow(rows: seq<Row>, pid: string)
    ensures GetProduct(rows, pid).Some? ==>
      exists i | 0 <= i < |rows| :: FirstMatch(rows, StripZeros(pid), i) && GetProduct(rows, pid).value == ToProduct(rows[i])
  {
    var f := FindRowFrom(rows, StripZeros(pid), 0);
    if f.Some? {
      assert FirstMatch(rows, StripZeros(pid), f.value);
    }
  }

  /** Row i is the first row with the given id. */
  ghost predicate FirstMatch(rows: seq<Row>, id: string, i: nat) {
    i < |rows| && rows[i].id == id && forall j | 0 <= j < i :: rows[j].id != id
  }

  /** Lookup does not see leading zeros. */
  lemma GetProductIgnoresLeadingZeros(rows: seq<Row>, pid: string)
    ensures GetProduct(rows, "0" + pid) == GetProduct(rows, pid)
    ensures GetProduct(rows, StripZeros(pid)) == GetProduct(rows, pid)
  {
    assert ("0" + pid)[1..] == pid;
    StripZerosIdempotent(pid);
  }

  /** `get_embedding`: the embedding row mapped to the zero-stripped `pid`, if any. */
  function GetEmbedding(svc: Service, pid: string): (r: Option<seq<real>>)
    requires Valid(svc)
    ensures r.None? <==> StripZeros(pid) !in svc.idToIdx
    ensures r.Some? ==> r.value == svc.embeddings[svc.idToIdx[StripZeros(pid)]]
    ensures r.Some? ==> |r.value| == svc.dim
  {
    var id := StripZeros(pid);
    if id !in svc.idToIdx then None else Some(svc.embeddings[svc.idToIdx[id]])
  }

  lemma GetEmbeddingIgnoresLeadingZeros(svc: Service, pid: string)
    requires Valid(svc)
    ensures GetEmbedding(svc, "0" + pid) == GetEmbedding(svc, pid)
    ensures GetEmbedding(svc, StripZeros(pid)) == GetEmbedding(svc, pid)
  {
    assert ("0" + pid)[1..] == pid;
    StripZerosIdempotent(pid);
  }

  /** The product behind each row of the embedding matrix, as `get_product` finds it. */
  function ProductTable(svc: Service): (t: seq<Option<Product>>)
    ensures |t| == |svc.idxToId|
  {
    TableUpTo(svc, |svc.idxToId|)
  }

  function TableUpTo(svc: Service, n: nat): (t: seq<Option<Product>>)
    requires n <= |svc.idxToId|
    ensures |t| == n
  {
    if n == 0 then [] else TableUpTo(svc, n - 1) + [GetProduct(svc.rows, svc.idxToId[n - 1])]
  }

  lemma {:induction false} TableAt(svc: Service, n: nat, i: nat)
    requires i < n <= |svc.idxToId|
    ensures TableUpTo(svc, n)[i] == GetProduct(svc.rows, svc.idxToId[i])
  {
    var prefix := TableUpTo(svc, n - 1);
    assert TableUpTo(svc, n) == prefix + [GetProduct(svc.rows, svc.idxToId[n - 1])];
    if i < n - 1 {
      TableAt(svc, n - 1, i);
      assert TableUpTo(svc, n)[i] == prefix[i];
    }
  }

  /** `get_product(idx_to_id[idx])`, as the routers call it for a search hit. */
  method ProductAt(svc: Service, idx: nat) returns (p: Option<Product>)
    requires idx < |svc.idxToId|
    ensures p == ProductTable(svc)[idx]
  {
    p := GetProduct(svc.rows, svc.idxToId[idx]);
    TableAt(svc, |svc.idxToId|, idx);
  }

  /** The table holds `get_product` of each row's id, and a found product carries the
      row's own id. */
  lemma ProductTableIds(svc: Service)
    requires Valid(svc)
    ensures forall i | 0 <= i < |svc.idxToId| && ProductTable(svc)[i].Some? :: ProductTable(svc)[i].value.id == svc.idxToId[i]
  {
    var t := ProductTable(svc);
    forall i | 0 <= i < |svc.idxToId| && t[i].Some? ensures t[i].value.id == svc.idxToId[i] {
      TableAt(svc, |svc.idxToId|, i);
    }
  }

  // ---------------------------------------------------------------- scoring

  function Dot(a: seq<real>, b: seq<real>): real
    requires |a| == |b|
  {
    if |a| == 0 then 0.0 else a[0] * b[0] + Dot(a[1..], b[1..])
  }

  function Scores(emb: seq<seq<real>>, q: seq<real>): (s: seq<real>)
    requires forall i | 0 <= i < |emb| :: |emb[i]| == |q|
    ensures |s| == |emb|
    ensures forall i | 0 <= i < |emb| :: s[i] == Dot(emb[i], q)
  {
    seq(|emb|, i requires 0 <= i < |emb| => Dot(emb[i], q))
  }

  ghost predicate Distinct(xs: seq<nat>) {
    forall a, b | 0 <= a < b < |xs| :: xs[a] != xs[b]
  }

  /** Row indices listed by non-increasing score. */
  ghost predicate Descending(s: seq<real>, xs: seq<nat>)
    requires forall j | 0 <= j < |xs| :: xs[j] < |s|
  {
    forall a, b | 0 <= a < b < |xs| :: s[xs[a]] >= s[xs[b]]
  }

  /** Places row `x` after every listed row scoring at least as much. */
  function Insert(s: seq<real>, x: nat, xs: seq<nat>): (r: seq<nat>)
    requires x < |s| && forall j | 0 <= j < |xs| :: xs[j] < |s|
    ensures |r| == |xs| + 1
    ensures forall y :: y in r <==> y == x || y in xs
    ensures forall j | 0 <= j < |r| :: r[j] < |s|
  {
    if xs == [] then [x]
    else if s[xs[0]] >= s[x] then [xs[0]] + Insert(s, x, xs[1..])
    else [x] + xs
  }

  lemma {:induction false} InsertDescending(s: seq<real>, x: nat, xs: seq<nat>)
    requires x < |s| && forall j | 0 <= j < |xs| :: xs[j] < |s|
    requires Descending(s, xs)
    ensures Descending(s, Insert(s, x, xs))
  {
    if xs == [] {
    } else if s[xs[0]] >= s[x] {
      var rest := Insert(s, x, xs[1..]);
      InsertDescending(s, x, xs[1..]);
      forall j | 0 <= j < |rest| ensures s[xs[0]] >= s[rest[j]] {
        assert rest[j] in rest;
        if rest[j] != x {
          var b :| 0 <= b < |xs[1..]| && xs[1..][b] == rest[j];
          assert xs[b + 1] == rest[j];
        }
      }
      var r := [xs[0]] + rest;
      forall a, b | 0 <= a < b < |r| ensures s[r[a]] >= s[r[b]] {
        if a > 0 { assert r[a] == rest[a - 1] && r[b] == rest[b - 1]; }
      }
    } else {
      var r := [x] + xs;
      forall a, b | 0 <= a < b < |r| ensures s[r[a]] >= s[r[b]] {
        if a == 0 && b > 1 { assert s[xs[0]] >= s[xs[b - 1]]; }
      }
    }
  }

  lemma {:induction false} InsertDistinct(s: seq<real>, x: nat, xs: seq<nat>)
    requires x < |s| && forall j | 0 <= j < |xs| :: xs[j] < |s|
    requires Distinct(xs) && x !in xs
    ensures Distinct(Insert(s, x, xs))
  {
    if xs != [] && s[xs[0]] >= s[x] {
      var rest := Insert(s, x, xs[1..]);
      assert x !in xs[1..];
      InsertDistinct(s, x, xs[1..]);
      assert xs[0] !in rest by {
        assert xs[0] != x;
        assert xs[0] !in xs[1..];
      }
      var r := [xs[0]] + rest;
      forall a, b | 0 <= a < b < |r| ensures r[a] != r[b] {
        if a == 0 { assert r[b] in rest; } else { assert r[a] == rest[a - 1] && r[b] == rest[b - 1]; }
      }
    } else if xs != [] {
      var r := [x] + xs;
      forall a, b | 0 <= a < b < |r| ensures r[a] != r[b] {
        if a == 0 { assert r[b] in xs; }
      }
    }
  }

  /** Rows 0 .. n-1 ranked by non-increasing score; equal scores keep ascending row order. */
  function Rank(s: seq<real>, n: nat): (r: seq<nat>)
    requires n <= |s|
    ensures |r| == n
    ensures forall y: int :: y in r <==> 0 <= y < n
    ensures forall j | 0 <= j < |r| :: r[j] < |s|
  {
    if n == 0 then [] else Insert(s, n - 1, Rank(s, n - 1))
  }

  /** The ranking is a descending arrangement of distinct rows. */
  lemma {:induction false} RankOrdered(s: seq<real>, n: nat)
    requires n <= |s|
    ensures Descending(s, Rank(s, n)) && Distinct(Rank(s, n))
  {
    if n > 0 {
      RankOrdered(s, n - 1);
      InsertDescending(s, n - 1, Rank(s, n - 1));
      InsertDistinct(s, n - 1, Rank(s, n - 1));
    }
  }

  /** Length of the numpy slice `a[-k:]` of an n-element array: the last k elements for
      k >= 1, all of them for k == 0, and all but the first -k for negative k. */
  function SliceLength(k: int, n: nat): nat {
    if k > 0 then (if k < n then k else n)
    else if k == 0 then n
    else if n + k > 0 then n + k
    else 0
  }

  /** `search_similar`: every row scored by dot product with the query, then the
      SliceLength(k, n) best rows, best first. */
  function SearchSimilar(emb: seq<seq<real>>, q: seq<real>, k: int): seq<Candidate>
    requires forall i | 0 <= i < |emb| :: |emb[i]| == |q|
  {
    var s := Scores(emb, q);
    var order := Rank(s, |s|);
    seq(SliceLength(k, |emb|), j requires 0 <= j < SliceLength(k, |emb|) => Candidate(order[j], s[order[j]]))
  }

  function Indices(cands: seq<Candidate>): set<nat> {
    set c | c in cands :: c.idx
  }

  ghost predicate SortedByScore(cands: seq<Candidate>) {
    forall a, b | 0 <= a < b < |cands| :: cands[a].score >= cands[b].score
  }

  /** The search result has min(k, n) entries for k >= 1 and all n rows for k == 0;
      each entry is a valid row paired with its own score. */
  lemma SearchSimilarShape(emb: seq<seq<real>>, q: seq<real>, k: int)
    requires forall i | 0 <= i < |emb| :: |emb[i]| == |q|
    ensures var r := SearchSimilar(emb, q, k);
      && |r| == SliceLength(k, |emb|)
      && (k >= 1 ==> |r| == if k < |emb| then k else |emb|)
      && (k == 0 ==> |r| == |emb|)
      && (forall j | 0 <= j < |r| :: r[j].idx < |emb| && r[j].score == Dot(emb[r[j].idx], q))
  {
  }

  /** Entry j of the search result is the j-th row of the ranking. */
  lemma SearchSimilarAt(emb: seq<seq<real>>, q: seq<real>, k: int, j: nat)
    requires forall i | 0 <= i < |emb| :: |emb[i]| == |q|
    requires j < SliceLength(k, |emb|)
    ensures SearchSimilar(emb, q, k)[j] == Candidate(Rank(Scores(emb, q), |emb|)[j], Scores(emb, q)[Rank(Scores(emb, q), |emb|)[j]])
  {
  }

  /** The search result lists distinct rows, best first. */
  lemma SearchSimilarSorted(emb: seq<seq<real>>, q: seq<real>, k: int)
    requires forall i | 0 <= i < |emb| :: |emb[i]| == |q|
    ensures var r := SearchSimilar(emb, q, k);
      && (forall a, b | 0 <= a < b < |r| :: r[a].idx != r[b].idx)
      && SortedByScore(r)
  {
    var r := SearchSimilar(emb, q, k);
    var s := Scores(emb, q);
    var order := Rank(s, |s|);
    RankOrdered(s, |s|);
    forall a, b | 0 <= a < b < |r| ensures r[a].idx != r[b].idx && r[a].score >= r[b].score {
      SearchSimilarAt(emb, q, k, a);
      SearchSimilarAt(emb, q, k, b);
    }
  }

  /** No row left out of the search result scores higher than any row returned. */
  lemma SearchSimilarIsTopK(emb: seq<seq<real>>, q: seq<real>, k: int)
    requires forall i | 0 <= i < |emb| :: |emb[i]| == |q|
    ensures var r := SearchSimilar(emb, q, k);
      forall i, j | 0 <= i < |emb| && i !in Indices(r) && 0 <= j < |r| :: Dot(emb[i], q) <= r[j].score
  {
    var r := SearchSimilar(emb, q, k);
    var s := Scores(emb, q);
    var order := Rank(s, |s|);
    RankOrdered(s, |s|);
    forall i, j | 0 <= i < |emb| && i !in Indices(r) && 0 <= j < |r|
      ensures Dot(emb[i], q) <= r[j].score
    {
      assert i in order;
      var p :| 0 <= p < |order| && order[p] == i;
      if p < |r| {
        SearchSimilarAt(emb, q, k, p);
        assert false;
      }
      SearchSimilarAt(emb, q, k, j);
      assert s[order[j]] >= s[order[p]];
    }
  }
}
