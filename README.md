# ShopperOS recommendation core in Dafny

This project models the recommendation core of the ShopperOS API: the embedding service
and the four routers built on it.

The embedding service holds:
- the product table;
- the embedding matrix, with its id <-> row maps;
- per-user taste vectors;
- the popular and trending lists.

It answers three queries:
- `get_product`: product lookup by zero-stripped id;
- `get_embedding`: embedding lookup by zero-stripped id;
- `search_similar`: exhaustive dot-product top-k search.

The routers:
- **personalised catalogue**: cold start from the popular list, or taste search plus category and price filters;
- **calibration**: taste from liked and disliked swipes, with recommendations, plus the calibration card set;
- **alternatives**: products near a given one, each with its reasons;
- **discovery feed**: "Just For Today", "New Arrivals in Your Style" and "Trending";
- **gift suggestions**: from a gift list or from a recipient's taste, with the popular fallback.

Modules:
- `Embeddings` (embeddings.dfy) holds the service, which is loaded once and never updated, so it is a value.
  - `StripZeros` is `lstrip("0")`.
  - `GetProduct` and `GetEmbedding` are functions.
  - `SearchSimilar` scores every row and keeps the `[-k:]` slice of the ranking, best first. The slice length is modelled exactly, including k = 0 and negative k.
- `Vectors` (vectors.dfy) holds the vector arithmetic: mean, difference and scaling.
- `Walks` (walks.dfy) holds what every router loop shares:
  - a *pick* is a candidate position and the item built from it;
  - `Cap(k)` is how many items a loop that appends before testing `len >= k` can return;
  - `PyPrefix` is Python's `[:k]`.
- `Catalog`, `Alternatives`, `Discovery` and `Gifts` hold one router each.

Each router loop is written as a `method` with a `while` loop. It is proved equal to an index-recursive specification function that returns the picks. Lemmas about that function state what the source promises: bounds, filters, exclusions, distinctness, and best-first order when the candidates are sorted.

## Model

| member | source | states |
|---|---|---|
| Embeddings.StripZerosSpec | app/services/embeddings.py:55 | the result is a suffix of the id, does not start with '0', and everything dropped was '0' |
| Embeddings.StripZerosIdempotent | app/services/embeddings.py:55 | stripping twice is stripping once |
| Embeddings.StripZerosUnique | app/services/embeddings.py:55 | any suffix with those three properties is the result, so they determine it |
| Embeddings.FindRowFrom | app/services/embeddings.py:56-57 | no row found iff no row has the id; a found row has the id and is the first such |
| Embeddings.GetProduct | app/services/embeddings.py:53-69 | a found product carries the zero-stripped id |
| Embeddings.GetProductNone | app/services/embeddings.py:56-58 | lookup fails exactly when no row has the zero-stripped id |
| Embeddings.GetProductFirstRow | app/services/embeddings.py:56-69 | a found product is built from the first matching row, with the defaults for missing columns |
| Embeddings.GetProductIgnoresLeadingZeros | app/services/embeddings.py:55 | a leading zero, or stripping first, does not change the lookup |
| Embeddings.GetEmbedding | app/services/embeddings.py:71-77 | none iff the stripped id is unmapped; otherwise the mapped row of the matrix, of the model's dimension |
| Embeddings.GetEmbeddingIgnoresLeadingZeros | app/services/embeddings.py:73 | a leading zero, or stripping first, does not change the lookup |
| Embeddings.TableAt | app/services/embeddings.py:53-69 | entry i of the product table is `get_product` of row i's stored id |
| Embeddings.ProductTableIds | app/services/embeddings.py:53-69 | a product found for a matrix row carries that row's stored id |
| Embeddings.Rank | app/services/embeddings.py:50 | the ranking is a permutation of the row indices |
| Embeddings.RankOrdered | app/services/embeddings.py:50 | the ranking is by non-increasing score, without repeats |
| Embeddings.SearchSimilarShape | app/services/embeddings.py:47-51 | min(k, n) hits for k >= 1 and all n for k = 0; each hit is a valid row with its own score |
| Embeddings.SearchSimilarSorted | app/services/embeddings.py:50-51 | hits are distinct rows, best first |
| Embeddings.SearchSimilarIsTopK | app/services/embeddings.py:50 | no row left out scores higher than any returned hit |
| Vectors.Mean | app/routers/catalog.py:87 | the mean of vectors of one dimension has that dimension |
| Vectors.MeanOfCopies | app/routers/catalog.py:87 | the mean of copies of one vector is that vector |
| Walks.PyPrefix | app/routers/catalog.py:25 | `[:k]` is a prefix, of length min(k, n) for k >= 0 |
| Walks.PicksDescend | app/routers/catalog.py:39 | picks taken in candidate order from sorted candidates have non-increasing scores |
| Walks.SearchHits | app/services/embeddings.py:47-51 | every hit of a search over the loaded matrix is a row of the product table, and hits are best first |
| Catalog.ColdStartPicksSound | app/routers/catalog.py:24-29 | cold start keeps at most one entry per listed id, in list order, each that id's product at affinity 0.5 |
| Catalog.ColdStartPicksComplete | app/routers/catalog.py:25-29 | no listed id that resolves is left out |
| Catalog.ColdStart | app/routers/catalog.py:22-30 | the loop returns the cold-start picks of the first k popular ids: at most k, all at 0.5 |
| Catalog.CatalogPicksInOrder | app/routers/catalog.py:39-58 | at most `need` picks, in increasing candidate order |
| Catalog.CatalogPicksPass | app/routers/catalog.py:40-55 | every pick resolves, passes the category and price filters, and carries its own search score |
| Catalog.CatalogPicksComplete | app/routers/catalog.py:39-58 | a walk that stops short has kept every candidate that resolves and passes the filters |
| Catalog.CatalogWalkFacts | app/routers/catalog.py:39-58 | at most `need` products, all passing the filters, best first when the candidates are sorted |
| Catalog.FilterWalk | app/routers/catalog.py:38-58 | the loop returns the catalogue picks, at most Cap(k), filtered, best first |
| Catalog.PersonalizedCatalog | app/routers/catalog.py:8-60 | cold start iff the user has no taste vector; otherwise the filtered walk over the top 3k hits; at most k for k >= 1; filtered and best first |
| Catalog.Resolved | app/routers/catalog.py:77-81 | the embeddings of the ids that resolve, in order; empty iff none resolves |
| Catalog.CollectEmbeddings | app/routers/catalog.py:77-81 | the loop collects exactly the resolved embeddings |
| Catalog.RawTaste | app/routers/catalog.py:86-98 | the un-normalised taste has the model's dimension |
| Catalog.RawTasteOfLikesOnly | app/routers/catalog.py:86-98 | liking copies of one vector and disliking nothing gives back that vector |
| Catalog.RawTasteOfLikeAndDislike | app/routers/catalog.py:89-98 | one like v and one dislike w give v - 0.3 w |
| Catalog.RecPicksInOrder | app/routers/catalog.py:108-117 | at most `need` recommendations, in candidate order |
| Catalog.RecPicksSound | app/routers/catalog.py:108-117 | every recommendation is an unswiped candidate that resolves, with its own score |
| Catalog.RecPicksComplete | app/routers/catalog.py:108-117 | a walk that stops short has taken every unswiped candidate that resolves |
| Catalog.RecWalkFacts | app/routers/catalog.py:106-117 | at most `need` recommendations, none swiped, best first |
| Catalog.RecommendWalk | app/routers/catalog.py:106-117 | the loop returns the recommendation picks |
| Catalog.SeenAsSentRecommendsLiked | app/routers/catalog.py:107-115 | a liked id sent with a leading zero is recommended back |
| Catalog.ComputeTasteFromCalibration | app/routers/catalog.py:63-122 | errors for no likes and for no resolvable likes; otherwise the normalised taste, and at most 10 best-first recommendations from the top 20 hits, none of them a swiped product |
| Catalog.PerCategory | app/routers/catalog.py:137 | the larger of 2 and n // categories: at least both, and equal to one of them |
| Catalog.CardsFromIsPrefix | app/routers/catalog.py:139-153 | the early-stopping loop yields a prefix of all the sampled cards, of length at least n when it stops early |
| Catalog.CalibrationIsPrefixOfAll | app/routers/catalog.py:152-155 | stopping early does not change the first n cards |
| Catalog.AllCardsFromSamples | app/routers/catalog.py:139-151 | every card's category is one of the listed categories |
| Catalog.AllCardsBound | app/routers/catalog.py:137-142 | with at most m rows sampled per category, the categories from i on give at most m cards each, in total |
| Catalog.AllCardsQuota | app/routers/catalog.py:137-151 | with distinct categories, the cards of any one category number at most m, and none for a category already passed |
| Catalog.CalibrationFacts | app/routers/catalog.py:136-155 | the first n of all sampled cards, at most n, each of a listed category, at most m of any one category, at most categories * m in all |
| Catalog.CollectCards | app/routers/catalog.py:139-153 | the loop, stopping once n cards are in hand, yields the early-stopping card list |
| Catalog.AppendCards | app/routers/catalog.py:143-151 | appends one card per row |
| Catalog.GetCalibrationProducts | app/routers/catalog.py:125-155 | error iff there are no categories (division by zero); otherwise the first n sampled cards, of listed categories, at most `per_category` of any one category, at most categories * per_category in all |
| Alternatives.Reasons | app/routers/alternatives.py:45-51 | same style iff same category, same colour iff same colour, "similar style" iff neither; category first |
| Alternatives.AltPicksInOrder | app/routers/alternatives.py:33-58 | at most `need` alternatives, in candidate order |
| Alternatives.AltPicksSound | app/routers/alternatives.py:33-55 | every alternative is another product that resolves, with its score and reasons |
| Alternatives.AltPicksComplete | app/routers/alternatives.py:33-58 | a walk that stops short has offered every other candidate that resolves |
| Alternatives.AltWalkFacts | app/routers/alternatives.py:33-58 | at most `need`, never the source, reasons as above, best first |
| Alternatives.AltLoop | app/routers/alternatives.py:29-58 | the loop over the search hits yields exactly the alternative picks |
| Alternatives.AltWalk | app/routers/alternatives.py:29-58 | the loop result has the facts above: bound, never the source, reasons, best first |
| Alternatives.GetAlternatives | app/routers/alternatives.py:17-63 | "Product not found", then "No embedding for product", as the source orders them; otherwise the walk over the top 2k hits, at most k, never the source, best first |
| Discovery.TodayPicksInOrder | app/routers/discovery.py:27-32 | at most one item per hit, in hit order |
| Discovery.TodayPicksFound | app/routers/discovery.py:27-32 | each item is the product of its hit, with that hit's score |
| Discovery.TodayWalk | app/routers/discovery.py:27-32 | the loop returns the Just For Today picks |
| Discovery.PopularPicksInOrder | app/routers/discovery.py:35-38 | at most one item per popular id, in list order |
| Discovery.PopularPicksFound | app/routers/discovery.py:35-38 | each item is its id's product, without affinity |
| Discovery.PopularWalk | app/routers/discovery.py:35-38 | the loop returns the popular picks |
| Discovery.NewPicksInOrder | app/routers/discovery.py:53-63 | at most `need` new arrivals, in hit order |
| Discovery.NewPicksSound | app/routers/discovery.py:53-63 | each new arrival is an unseen hit that resolves, with its score; no id repeats |
| Discovery.NewArrivalsWalk | app/routers/discovery.py:52-63 | the loop returns the new-arrival picks |
| Discovery.NewArrivalsFacts | app/routers/discovery.py:52-63 | at most 5, none shown in section 1, no repeats |
| Discovery.TrendPicksInOrder | app/routers/discovery.py:74-80 | at most `need` trending items, in list order |
| Discovery.TrendPicksFound | app/routers/discovery.py:74-78 | each trending item is the product of its entry's id |
| Discovery.TrendingWalk | app/routers/discovery.py:72-80 | the loop returns the trending picks |
| Discovery.GetDiscoveryFeed | app/routers/discovery.py:7-88 | three sections with their titles and types; section 1 from the varied taste or the popular list, at most 5; section 2 empty without taste, else at most 5 unseen distinct products; section 3 at most 5 from the first 10 of the "7d" list |
| Gifts.PopularFromQuota | app/routers/gifts.py:38-53 | the suggestions of any one category number at most 3, and none for a gift category already passed |
| Gifts.PopularFromFacts | app/routers/gifts.py:38-53 | at most 3 of any one category, at most 3 per remaining gift category in all, each of a gift category with its "popular" reason and no score |
| Gifts.AppendPopular | app/routers/gifts.py:44-52 | appends the category's suggestions |
| Gifts.PopularGifts | app/routers/gifts.py:37-55 | the first k of the sampled gift-category suggestions, at most 3 of any one category, marked as the empty-list answer |
| Gifts.ItemProfile | app/routers/gifts.py:63-70 | an item contributes a vector iff it has an embedding, and a category and colour only with it |
| Gifts.ListProfile | app/routers/gifts.py:62-70 | all vectors of one dimension; no more categories than vectors |
| Gifts.ItemProfileIgnoresLeadingZeros | app/routers/gifts.py:63 | stripping the id first does not change what the item contributes |
| Gifts.ListProfileEmpty | app/routers/gifts.py:62-72 | the list has no vectors iff no item has an embedding |
| Gifts.AddItem | app/routers/gifts.py:64-70 | one pass appends the item's contribution |
| Gifts.CollectProfile | app/routers/gifts.py:57-70 | the loop collects the list's profile |
| Gifts.MostCommonUnique | app/routers/gifts.py:89-90 | first-seen tie-breaking makes the most common value unique |
| Gifts.TopIndexIsMostCommon | app/routers/gifts.py:89-90 | the scan ends on the most common position |
| Gifts.TopOfIsMostCommon | app/routers/gifts.py:89-90 | a non-empty list has a most common position, and TopOf is the value there |
| Gifts.ListReason | app/routers/gifts.py:109-115 | matches-love iff the top category, favourite colour iff not that but the top colour, complements otherwise |
| Gifts.ListPicksInOrder | app/routers/gifts.py:92-130 | at most `need` suggestions, in hit order |
| Gifts.ListPicksSound | app/routers/gifts.py:92-127 | each suggestion is an unlisted hit that resolves, with its score and reason, of a new category when diversifying |
| Gifts.ListPicksDistinct | app/routers/gifts.py:104-127 | when diversifying, no two suggestions share a category |
| Gifts.ListWalkFacts | app/routers/gifts.py:92-130 | at most `need`, none listed, reason as above, distinct categories when diversifying, best first |
| Gifts.ListWalkLoop | app/routers/gifts.py:85-130 | the loop returns the list picks with the facts above |
| Gifts.ListSuggestions | app/routers/gifts.py:78-132 | the walk over the top 5k hits of the normalised mean: at most k, none on the list, best first, reasons from the list's top category and colour |
| Gifts.GetGiftSuggestions | app/routers/gifts.py:24-132 | the empty-list answer exactly when the list's profile has no vector, at most 3 of any one category; otherwise the list suggestions above, with their facts |
| Gifts.TopOf | app/routers/gifts.py:89-90 | none iff the list is empty |
| Gifts.UserPicksInOrder | app/routers/gifts.py:162-196 | at most `need` suggestions, in hit order |
| Gifts.UserPicksSound | app/routers/gifts.py:162-191 | each suggestion resolves, is of no excluded category, is within the given price bounds, is of a new category, and carries its score as affinity |
| Gifts.UserPicksDistinct | app/routers/gifts.py:179-194 | no two suggestions share a category |
| Gifts.UserWalk | app/routers/gifts.py:160-196 | the loop returns the recipient picks |
| Gifts.UserWalkFacts | app/routers/gifts.py:160-196 | at most `need`, filtered, distinct categories, "matches their style" reasons, best first |
| Gifts.GetGiftSuggestionsForUser | app/routers/gifts.py:135-198 | the popular answer without a taste vector; otherwise the filtered walk over the top 5k hits: at most k, distinct categories, best first |

## Findings

| source | as written | input that shows it | evidently intended | confidence | as-written member | corrected member |
|---|---|---|---|---|---|---|
| app/routers/catalog.py:107-110 | the seen set holds the swiped ids as sent, but is tested against `idx_to_id` entries, which the model assumes are zero-stripped | liked id "01" where row 0 is stored as "1": product "1" is recommended back to the user who liked it | exclude every swiped product, comparing stripped ids as gifts.py:86 does | medium, not executed | Catalog.SeenAsSentRecommendsLiked | Catalog.ComputeTasteFromCalibration |

`Catalog.ComputeTasteFromCalibration` uses the corrected set `Catalog.SwipedIds`. The finding rests on the assumption about `idx_to_id` stated under "## Left out": if the mapping file held ids with their leading zeros, the test on the ids as sent would be the right one.

## Left out

- Loading from disk (numpy, pickle, parquet), the singleton, `lru_cache` and `print` are not modelled. The service is a value whose tables are the loaded data.
- `Embeddings.Valid` assumes that the `idx_to_id` entries of the mapping file are zero-stripped. No code strips them: they are loaded unchanged (embeddings.py:26-27), and only the product ids are stripped at load (embeddings.py:32). The assumption is what the code relies on:
  - alternatives.py:37 compares an `idx_to_id` entry with the stripped source id;
  - gifts.py:86-95 tests `idx_to_id` entries against stripped list ids;
  - `get_product` looks each entry up among stripped product ids.
  What rests on it: the "never the source" clause of `Alternatives.GetAlternatives`, the id facts of `Embeddings.ProductTableIds`, the exclusion of section-1 ids in `Discovery.NewArrivalsFacts`, the not-listed clauses of the gift walks, and the catalog.py:107-110 finding. With unstripped entries, alternatives.py:37 would let the source product through.
- Floating point is modelled as exact `real` arithmetic.
- Normalisation by `norm + 1e-8` is not computed. The caller passes the positive factor `invNorm`, since a square root has no exact `real` form.
- Randomness is an input:
  - the daily noise vector of the discovery feed;
  - pandas `sample` draws: per-category sample rows, whose lengths respect the requested sizes.
- pandas `value_counts().head(10)` is not computed. The calibration categories arrive as an input list.
- Embeddings.SearchSimilar: tied scores are ranked lower row first. This is a model choice: numpy's default `argsort` does not fix an order for ties. The routers' exact result equations (`PersonalizedCatalog`, `ComputeTasteFromCalibration`, `GetAlternatives`, `GetDiscoveryFeed`, `ListSuggestions`, `GetGiftSuggestionsForUser`) hold for this tie order only. The bound, filter, best-first and top-k facts (`SearchSimilarSorted`, `SearchSimilarIsTopK` and the `*WalkFacts` lemmas) hold for any tie order.
- Query dimensions are required to match the matrix. A numpy shape error is not modelled.
- Reason and message text is modelled as datatype values. String formatting (`lower()`, percentages) is left out.
- Result dictionaries are records, so the in-place update of `prod["affinity_score"]` becomes a field of the returned record.
- The unused `exclude_purchased` parameter and FastAPI's `Query` bounds (`le=100`, `le=50`) are not modelled. Every `k`/`n` is handled, including 0 and negatives.
- Trending entries that are neither strings nor records are not modelled. A record without `product_id` falls back to its own text, as `str(item)` does.
- Catalog.GetCalibrationProducts: the Python `ZeroDivisionError` raised for an empty category list is returned as an error value.
- Embeddings.GetProduct: its contract states only the found id. That lookup fails exactly when no row matches is stated by `Embeddings.GetProductNone`, and which row is used by `Embeddings.GetProductFirstRow`.
- Gifts.GetGiftSuggestions: states the empty-list condition through the profile. That this is "no item has an embedding" is `Gifts.ListProfileEmpty`.
- Gifts.ListProfile: looks the item up as given, while the code looks up the stripped id. The two agree by `Gifts.ItemProfileIgnoresLeadingZeros`.
- app/main.py (the application wiring) is not part of this model.
