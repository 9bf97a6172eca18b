# Property listing back end: cache-aside and invalidation

This project models the request handlers of a property-listing REST back end. It covers
properties, favourites and recommendations. Each handler runs against two shared stores:

- a durable document store, with four collections: properties, favourites, recommendations
  and users;
- a key-value cache that holds JSON documents under string keys.

Read handlers use the cache-aside pattern. On a hit they answer with the cached document
without querying the store. On a miss they query the store, cache the answer, and return it.
Write handlers change the store and then delete the cache keys they can name.

The model is built as follows:

- `Backend.Stores` is a class whose fields are the four collections, the cache and a ghost
  counter of the queries the read handlers send to the store on a cache miss (the write
  handlers' own lookups and saves are not counted).
- Each handler is a method on those fields. Its postcondition states the exact new state and
  the response, path by path.
- `Stores.Valid` is the invariant every handler keeps:
  - the natural order of the properties lists each stored property once;
  - every cache entry lies under a key of one of the five key families;
  - every entry under a `property:<id>`, `favorites:<user>` or `recommendations:<user>` key
    equals what the store would answer for that key.

From the invariant the model proves that these reads answer what the store holds, whether
they hit or miss.

The same proofs pin down the gaps of the code as written:

- Writes delete the key `properties`, but no handler ever writes that key. Lemma
  `CacheKeys.ListKeyUnclassified` and method `PropertyController.CreateProperty` show the
  deletion changes nothing.
- Pages are cached under `properties:page:<page>:limit:<limit>`, and no write deletes such a
  key. No write deletes a `search:` key either.
- So list pages and search results go stale. `Scenarios.StalePageAfterUpdate` and
  `Scenarios.StaleSearchAfterDelete` exhibit this on concrete stores.

The search handler builds its filter object one conditional assignment at a time.
`Search.BuildQuery` models this with a loop-free sequence of assignments, following
JavaScript's property-assignment semantics (an existing key keeps its place, a new key goes
last). It is proved equal to a declarative reference, `Search.QueryOf`.

Facts about the code that the model follows:

- The code adds filter fields in one fixed order, so the search key depends only on the given
  parameters. It does not depend on the order the client sent them in.
- The code has no duplicate-address conflict check on create, and no validation beyond the
  schema's required fields and types.
- Create answers with the bare record, not an envelope.
- Cache keys carry no namespace prefix.

Modules, one per file: `Models` (records, create body, update patch), `Collections` (the
store's `find`, `deleteOne` and natural order), `CacheKeys`, `Pagination`, `Search`,
`Backend`, `PropertyController`, `FavouriteController`, `RecommendationController` and
`Scenarios` (handler sequences).

## Model

| member | source | states |
|---|---|---|
| Models.FromBody | controllers/propertyController.ts:7-8 | the stored record gets the new id, the caller as `createdBy` and each of the body's fields (title, description, price, location, bedrooms, bathrooms, area, type, status); `createdAt` is the body's or else the current time |
| Models.CreatorIgnoresBody | controllers/propertyController.ts:7 | whatever `createdBy` the body claims, the stored record is the same and its creator is the caller |
| Models.ApplyPatch | controllers/propertyController.ts:86 | an update keeps the id; for each of the eleven fields, a value in the body replaces the stored one and an absent field is kept; a given `createdBy` hands the record to that user |
| Models.ApplyPatchIdempotent | controllers/propertyController.ts:86 | applying the same update twice equals applying it once; the empty update changes nothing |
| CacheKeys.ParseNatToString | controllers/propertyController.ts:22 | the decimal rendering of a natural number reads back as that number |
| CacheKeys.ParseIntToString | controllers/propertyController.ts:22 | the rendering of any integer, sign included, reads back as that integer |
| CacheKeys.IntToStringInjective | controllers/propertyController.ts:22 | distinct integers render as distinct strings |
| CacheKeys.PropertyKey | controllers/propertyController.ts:54 | `property:<id>` is in the property family and the id is its suffix |
| CacheKeys.PageKey | controllers/propertyController.ts:22 | `properties:page:<p>:limit:<l>` is in the page family |
| CacheKeys.SearchKey | controllers/propertyController.ts:134 | `search:<filter>` is in the search family and the serialised filter is its suffix |
| CacheKeys.FavoritesKey | controllers/favouriteController.ts:20 | `favorites:<user>` is in the favourites family and the user id is its suffix |
| CacheKeys.RecommendationsKey | controllers/recommendationController.ts:41 | `recommendations:<user>` is in the recommendations family and the user id is its suffix |
| CacheKeys.PropertyKeyOfSuffix | controllers/propertyController.ts:54 | every key of the property family is `property:` followed by its suffix |
| CacheKeys.FavoritesKeyOfSuffix | controllers/favouriteController.ts:20 | every key of the favourites family is the favourites key of its suffix |
| CacheKeys.RecommendationsKeyOfSuffix | controllers/recommendationController.ts:41 | every key of the recommendations family is the recommendations key of its suffix |
| CacheKeys.ListKeyUnclassified | controllers/propertyController.ts:9 | the key `properties` that writes delete is in no family: it is not any page, search, property, favourites or recommendations key |
| CacheKeys.PropertyWriteSparesListings | controllers/propertyController.ts:87-88 | neither key a property update or delete deletes is a page or search key |
| CacheKeys.PageKeyInjective | controllers/propertyController.ts:22 | two (page, limit) pairs share a page key only if they are equal |
| Collections.Filter | controllers/favouriteController.ts:27 | `find(filter)` returns exactly the stored records that match, never more records than stored |
| Collections.FilterAppend | controllers/favouriteController.ts:8-9 | saving a record extends a filtered view by that record exactly when it matches |
| Collections.RemoveFirst | controllers/favouriteController.ts:37 | `deleteOne` with no matching record leaves the collection unchanged |
| Collections.RemoveFirstSplit | controllers/favouriteController.ts:37 | `deleteOne` removes only the first match; the records before and after it stay in order |
| Collections.RemoveFirstMultiset | controllers/favouriteController.ts:37 | `deleteOne` removes one copy of the record, if there is one, and every other record, duplicates included, stays |
| Collections.FilterRemoveFirst | controllers/favouriteController.ts:37 | removing a record a filter drops leaves that filter's view unchanged |
| Collections.RemoveId | controllers/propertyController.ts:109 | deleting a property removes exactly that id from the natural order, keeps it duplicate-free and shortens it by one |
| Collections.RemoveIdKeepsOrder | controllers/propertyController.ts:109 | the ids that remain after a delete keep their natural order: the result is the order with that id filtered out |
| Collections.Listing | controllers/propertyController.ts:32 | `find()` lists the stored properties position by position in natural order, and every id of the order appears |
| Pagination.ParamOr | controllers/propertyController.ts:18-19 | a missing, non-numeric or zero parameter gives the default (page 1, limit 50); any other value is kept; the result is never 0 |
| Pagination.PageOf | controllers/propertyController.ts:32 | `skip(s).limit(t)` returns the records from position `s` on, at most `t` of them, none past the end |
| Pagination.HasMoreIffNextPageNonEmpty | controllers/propertyController.ts:36 | for page and limit of at least 1, `hasMore` holds exactly when the next page is non-empty |
| Pagination.PagesCover | controllers/propertyController.ts:20-32 | reading pages 1..n in turn yields the first n·limit records in order, without gaps or repeats |
| Pagination.Example125 | controllers/propertyController.ts:31-36 | with 125 records and limit 50, pages 1 and 2 are full with `hasMore`, and page 3 holds the last 25 without it |
| Search.Assign | controllers/propertyController.ts:122-132 | assigning a key sets that key and leaves every other key's value as it was |
| Search.BuildQuery | controllers/propertyController.ts:121-132 | the filter object the handler builds step by step equals the canonical filter of the parameters |
| Search.QueryOfCanonical | controllers/propertyController.ts:121-132 | the filter holds each key at most once, in one fixed field order whatever parameters are given |
| Search.GetQueryOf | controllers/propertyController.ts:122-132 | the filter holds exactly the conditions the parameters ask for; min and max of price or area merge into one range |
| Search.QueryOfInjective | controllers/propertyController.ts:121-134 | different parameter sets give different filter objects |
| Search.KeyOf | controllers/propertyController.ts:134 | the search cache key is in the search family |
| Search.MatchesIffSatisfies | controllers/propertyController.ts:141 | a property matches the filter object exactly when it meets every given parameter |
| Search.ResultsMeaning | controllers/propertyController.ts:141 | a property is among the search results exactly when it is stored and meets every given parameter |
| Backend.Stores.Catalogue | controllers/propertyController.ts:32 | `find()` returns one record per stored id: every stored property appears, no id appears twice, and each record is the stored record under its own id |
| Backend.Stores.ListKeyNeverCached | controllers/propertyController.ts:9 | in any valid state nothing is cached under `properties`, so deleting it leaves the cache as it was |
| Backend.PropertyWriteCoherent | controllers/propertyController.ts:86-88 | changing one property keeps every cache entry coherent except the one under that property's key |
| Backend.FavouriteWriteCoherent | controllers/favouriteController.ts:9-11 | changing one user's favourites keeps every entry coherent except that user's favourites entry |
| Backend.RecommendationWriteCoherent | controllers/recommendationController.ts:23-25 | changing what one user receives keeps every entry coherent except that user's recommendations entry |
| PropertyController.CreateProperty | controllers/propertyController.ts:5-14 | stores the record from the body with the caller as creator, appends it to the natural order, answers 201 with it, and leaves the cache unchanged |
| PropertyController.PageFromStore | controllers/propertyController.ts:31-41 | the page answer lists the records from `skip` on, at most `limit`, and `hasMore` is `page·limit < total` |
| PropertyController.GetProperties | controllers/propertyController.ts:16-49 | a cached page is returned with no store query; a miss with a negative skip is 500; otherwise the store's page is cached under the page key and returned |
| PropertyController.GetProperty | controllers/propertyController.ts:52-71 | a hit returns the entry with no store query; a miss caches and returns the stored record, or gives 404 with the cache unchanged; on every path the answer is the stored record or 404 |
| PropertyController.UpdateProperty | controllers/propertyController.ts:73-94 | a missing id gives 404 and a caller who is not the creator 403, both with no change; otherwise the update is applied and exactly `property:<id>` and `properties` are deleted |
| PropertyController.DeleteProperty | controllers/propertyController.ts:96-117 | 404 and 403 change nothing; otherwise exactly that record leaves the store and the natural order, and exactly `property:<id>` and `properties` are deleted |
| PropertyController.SearchProperties | controllers/propertyController.ts:119-147 | a cached search is returned with no store query; a miss caches and returns exactly the matching stored properties in natural order |
| FavouriteController.AppendFavouriteOthers | controllers/favouriteController.ts:8-11 | adding a favourite leaves every other user's favourites unchanged |
| FavouriteController.AppendFavouriteOwner | controllers/favouriteController.ts:8-9 | adding a favourite appends it to its owner's favourites |
| FavouriteController.RemoveFavouriteOthers | controllers/favouriteController.ts:37-38 | removing a favourite leaves every other user's favourites unchanged |
| FavouriteController.RemovalKeepsCacheCoherent | controllers/favouriteController.ts:37-38 | after a removal and deletion of the owner's key, every remaining entry is coherent with the new collection |
| FavouriteController.AddFavorite | controllers/favouriteController.ts:5-16 | appends `(caller, property)` without a duplicate check, answers 201 with it, and deletes only `favorites:<caller>` |
| FavouriteController.GetFavorites | controllers/favouriteController.ts:18-33 | a hit makes no store query and a miss caches under `favorites:<caller>`; either way the answer is exactly the caller's favourites in stored order |
| FavouriteController.RemoveFavorite | controllers/favouriteController.ts:35-43 | removes at most one matching record, keeps all others, deletes only `favorites:<caller>`, and reports success even when nothing matched |
| RecommendationController.AppendRecommendationOthers | controllers/recommendationController.ts:18-25 | a new recommendation leaves what every other user receives unchanged |
| RecommendationController.AppendRecommendationRecipient | controllers/recommendationController.ts:18-23 | a new recommendation is appended to what its recipient receives |
| RecommendationController.RecommendProperty | controllers/recommendationController.ts:6-37 | an unknown email gives 404 with no change; otherwise it stores a recommendation from the caller to the user with that email and deletes only that user's key |
| RecommendationController.GetRecommendations | controllers/recommendationController.ts:39-68 | a hit, with the "from cache" message, makes no store query; a miss caches; either way the data is exactly the recommendations addressed to the caller |
| Scenarios.OwnerUpdateIsSeen | controllers/propertyController.ts:52-94 | a listing at 250000 by u1 cannot be changed by u2; after u1 raises it to 260000 the next read returns 260000 although the old record was cached |
| Scenarios.ListingOutlivesPropertyWrite | controllers/propertyController.ts:87-88 | the deletions of a property update or delete keep every page and search entry with its value |
| Scenarios.PageSurvivesUpdate | controllers/propertyController.ts:22-88 | a list page answered before an update is answered identically after it |
| Scenarios.StalePageAfterUpdate | controllers/propertyController.ts:22-88 | after a price rise the cached first page still shows 250000 while the record reads 260000 |
| Scenarios.SoleMatch | controllers/propertyController.ts:141 | searching a one-property catalogue the property satisfies returns that property |
| Scenarios.SearchSurvivesDelete | controllers/propertyController.ts:109-143 | a search answered before a delete is answered identically after it, though the property is gone |
| Scenarios.StaleSearchAfterDelete | controllers/propertyController.ts:109-143 | after its creator deletes `p1`, the earlier search still returns `p1` while reading it by id gives 404 |
| Scenarios.UpdateThenGet | controllers/propertyController.ts:86-87 | after an update by the creator, the next read by id returns the updated record |
| Scenarios.DeleteThenGet | controllers/propertyController.ts:109-110 | after a delete by the creator, the next read by id gives 404 |
| Scenarios.RecommendThenGet | controllers/recommendationController.ts:25-56 | after a recommendation to a user, that user's next listing comes from the store and ends with it |
| Scenarios.AddFavoriteTwice | controllers/favouriteController.ts:8-28 | adding the same favourite twice stores two records, and the next listing ends with both |

## Left out

- JSON serialisation and parsing of cached values is not modelled: the cache holds the
  structured document. The search key does spell out the filter's serialisation, but without
  JSON string escaping, so `Search.KeyOf` is not proved injective on the key text; only the
  filter object is (`Search.QueryOfInjective`).
- Entry lifetime (3600 seconds, set on every entry a handler writes) is not modelled. There
  is no clock, so entries never expire. The staleness the scenarios show is bounded by that lifetime
  in the running system.
- `parseInt` and `Number` parsing of query parameters are not modelled. Parameters arrive
  typed: `None` for a missing or empty value. For page and limit `None` also stands for a
  non-numeric value, as `parseInt(q) || d` turns NaN into the default.
- Search.BuildQuery: a non-numeric price, area, bedrooms or bathrooms bound is modelled as absent,
  so the condition is dropped and the search answers 200 and caches its results. The code
  instead sets it, because the string is truthy, to a `Number(q)` of NaN. The store's schema
  casting rejects that condition, so the code answers 500 and caches nothing.
- Pagination: page and limit are unbounded integers in the model, where the code has
  floating-point numbers. From 1e21 on, `${page}` prints in exponent form while
  `CacheKeys.IntToString` prints every digit. `(page-1)*limit` and `page*limit` stop being
  exact past 2^53. The store rejects a skip that does not fit a 64-bit integer, so for
  `page=10^18&limit=50` the code answers 500 while the model answers an empty page without
  `hasMore` and caches it.
- Models.ApplyPatch: the update body is applied as sent, and `PropertyPatch` cannot express
  update operators such as `$inc` or `$unset`, or `null` field values, all of which reach
  the record. The model covers plain field replacement only.
- Prices, areas, bedrooms and bathrooms are integers, not the schema's floating-point
  `Number`.
- The schema's optional fields (location, bedrooms, bathrooms, area, type and status;
  `models/Property.ts:27-38`) are always present in the model's records.
- The natural order of `find()` without a sort is taken to be insertion order. The store
  does not promise that order.
- Failures of the store or the cache, and the 400/500 answers of the catch blocks, are not
  modelled. The one exception is the 500 from a negative skip, which the store rejects.
  Also out: an ill-formed id rejected by the store, and schema validation of create and
  update bodies (required fields, types).
- Id generation is a parameter: `PropertyController.CreateProperty` takes a fresh id the
  store has not used.
- `populate()` joins are treated as the identity on the fetched records.
- Concurrency (`Promise.all`, interleaved requests, races between a miss and a write) is not
  modelled: handlers run one after another.
- Authentication, the routes, and the start-up of the store and cache connections are not
  modelled. The caller's id is a parameter; `controllers/authController.ts` is not part of
  this model.
- A negative limit is taken as its absolute value, the way the store's driver sends it; a
  negative skip is the store error above.
- PropertyController.GetProperties: the store-query counter counts the two parallel queries
  (`find` and `countDocuments`) as one visit to the store.
- Backend.Stores.Valid: ids are canonical strings. The code builds `property:<id>` from the
  raw path parameter, while the store converts it to an ObjectId, which accepts hex in
  either letter case. Two spellings of one id then name one record but two cache keys; an
  update through one spelling deletes only that key, and a read through the other can
  return the old record. The coherence of `property:` entries, and what
  `PropertyController.GetProperty` promises, hold only for canonical ids.
- Backend.Stores.Valid: says nothing about the values of page and search entries, since no
  write keeps them up to date; their staleness is what the scenarios exhibit.
