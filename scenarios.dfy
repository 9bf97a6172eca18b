/** Handler sequences as a client would issue them, with what each sequence is bound to
    return: reads after writes, including the cached listings that writes leave stale. */
module Scenarios {
  import opened Models
  import opened CacheKeys
  import opened Pagination
  import opened Backend
  import opened PropertyController
  import opened FavouriteController
  import opened RecommendationController
  import Search

  const Home := Location("1 Main St", "Austin", "TX", "73301", "USA")

  /** A create body claiming `u2` as the creator, at price 250000. */
  const Listed := PropertyBody("Loft", "Two rooms", 250000, Home, 2, 1, 80, "apartment", "for sale",
                               Some("u2"), None)

  const Raise := EmptyPatch.(price := Some(260000))

  /** `u1` lists a property at 250000 (the body's claim to be `u2` is ignored) and reads
      it, which caches it. `u2` may not change the price; `u1` raises it to 260000, and the
      next read returns 260000 although the old record had been cached. */
  method OwnerUpdateIsSeen() returns (denied: Response, seen: Response)
    ensures denied == Forbidden
    ensures seen.Ok? && seen.body.PropertyDoc?
    ensures seen.body.property.price == 260000 && seen.body.property.createdBy == "u1"
  {
    var db := new Stores(map[]);
    var created := CreateProperty(db, "u1", Listed, "p1", 0);
    var first := GetProperty(db, "p1");
    denied := UpdateProperty(db, "u2", "p1", Raise);
    var updated := UpdateProperty(db, "u1", "p1", Raise);
    seen := GetProperty(db, "p1");
  }

  /** Deleting the keys a property write deletes keeps every page and search entry. */
  lemma ListingOutlivesPropertyWrite(cache: map<string, Doc>, key: string, id: Id)
    requires FamilyOf(key) == PageKeys || FamilyOf(key) == SearchKeys
    requires key in cache
    ensures key in cache - {PropertyKey(id), ListKey}
    ensures (cache - {PropertyKey(id), ListKey})[key] == cache[key]
  {
    PropertyWriteSparesListings(id, key);
  }

  /** A list page answered before an update is answered the same way after it: the
      update deletes `property:<id>` and `properties`, never a `properties:page:` key. */
  method PageSurvivesUpdate(db: Stores, caller: Id, id: Id, patch: PropertyPatch,
                            pageQuery: Option<int>, limitQuery: Option<int>)
    returns (before: Response, updated: Response, after: Response)
    requires db.Valid()
    requires id in db.properties && db.properties[id].createdBy == caller
    modifies db`properties, db`cache, db`storeReads
    ensures db.Valid()
    ensures var page, limit := ParamOr(pageQuery, DefaultPage), ParamOr(limitQuery, DefaultLimit);
            PageKey(page, limit) !in old(db.cache) && Skip(page, limit) >= 0 ==>
              before == Ok(PageFromStore(old(db.Catalogue()), page, limit))
    ensures db.properties == old(db.properties)[id := ApplyPatch(old(db.properties)[id], patch)]
    ensures updated == Ok(PropertyDoc(db.properties[id]))
    ensures before.Ok? ==> after == before
  {
    ghost var key := PageKey(ParamOr(pageQuery, DefaultPage), ParamOr(limitQuery, DefaultLimit));
    before := GetProperties(db, pageQuery, limitQuery);
    if before.Ok? {
      assert key in db.cache && before == Ok(db.cache[key]);
    }
    ghost var cache1 := db.cache;
    updated := UpdateProperty(db, caller, id, patch);
    assert db.cache == cache1 - {PropertyKey(id), ListKey};
    if before.Ok? {
      ListingOutlivesPropertyWrite(cache1, key, id);
    }
    after := GetProperties(db, pageQuery, limitQuery);
  }

  /** The concrete case: the first page lists `p1` at 250000; after its creator raises
      the price to 260000 the page still shows 250000 while the record reads 260000. */
  method StalePageAfterUpdate() returns (page: Response, record: Response)
    ensures page.Ok? && page.body.PageDoc? && |page.body.properties| == 1
    ensures page.body.properties[0].price == 250000
    ensures record.Ok? && record.body.PropertyDoc? && record.body.property.price == 260000
  {
    var db := new Stores(map[]);
    var created := CreateProperty(db, "u1", Listed, "p1", 0);
    ghost var p1 := db.properties["p1"];
    assert p1.price == 250000 && db.Catalogue() == [p1];
    assert PageFromStore([p1], DefaultPage, DefaultLimit).properties == [p1];
    var first, updated;
    first, updated, page := PageSurvivesUpdate(db, "u1", "p1", Raise, None, None);
    record := GetProperty(db, "p1");
  }

  const InAustin := Search.Params(Some("Austin"), None, None, None, None, None, None, None, None, None, None)

  /** Searching a one-property catalogue the property satisfies returns that property. */
  lemma SoleMatch(p: Property, params: Search.Params)
    requires Search.Satisfies(p, params)
    ensures Search.Results([p], params) == [p]
  {
    Search.MatchesIffSatisfies(p, params);
    assert [p][1..] == [];
  }

  /** A search answered before a delete is answered the same way after it, even though
      the property is gone: no write deletes a `search:` entry. */
  method SearchSurvivesDelete(db: Stores, caller: Id, id: Id, params: Search.Params)
    returns (before: Response, deleted: Response, after: Response)
    requires db.Valid()
    requires id in db.properties && db.properties[id].createdBy == caller
    modifies db`properties, db`order, db`cache, db`storeReads
    ensures db.Valid()
    ensures Search.KeyOf(params) !in old(db.cache) ==>
      before == Ok(PropertyList(Search.Results(old(db.Catalogue()), params)))
    ensures deleted.Ok? && id !in db.properties
    ensures after == before
  {
    ghost var key := Search.KeyOf(params);
    before := SearchProperties(db, params);
    assert key in db.cache && before == Ok(db.cache[key]);
    ghost var cache1 := db.cache;
    ListingOutlivesPropertyWrite(cache1, key, id);
    deleted := DeleteProperty(db, caller, id);
    assert db.cache == cache1 - {PropertyKey(id), ListKey};
    after := SearchProperties(db, params);
  }

  /** The concrete case: `p1` in Austin is found by a search, deleted by its creator, and
      still found by the same search, while reading it by id gives 404. */
  method StaleSearchAfterDelete() returns (found: Response, record: Response)
    ensures found.Ok? && found.body.PropertyList? && |found.body.properties| == 1
    ensures found.body.properties[0].id == "p1"
    ensures record == NotFound
  {
    var db := new Stores(map[]);
    var created := CreateProperty(db, "u1", Listed, "p1", 0);
    ghost var p1 := db.properties["p1"];
    assert p1.id == "p1" && db.Catalogue() == [p1];
    SoleMatch(p1, InAustin);
    var before, deleted;
    before, deleted, found := SearchSurvivesDelete(db, "u1", "p1", InAustin);
    record := GetProperty(db, "p1");
  }

  /** After the creator updates a property, the next read by id returns the updated
      record, whether or not the old one was cached. */
  method UpdateThenGet(db: Stores, caller: Id, id: Id, patch: PropertyPatch)
    returns (updated: Response, seen: Response)
    requires db.Valid()
    requires id in db.properties && db.properties[id].createdBy == caller
    modifies db`properties, db`cache, db`storeReads
    ensures db.Valid()
    ensures updated == seen == Ok(PropertyDoc(ApplyPatch(old(db.properties)[id], patch)))
    ensures db.storeReads == old(db.storeReads) + 1
  {
    updated := UpdateProperty(db, caller, id, patch);
    seen := GetProperty(db, id);
  }

  /** After a delete by the creator, reading the property by id gives 404. */
  method DeleteThenGet(db: Stores, caller: Id, id: Id) returns (deleted: Response, seen: Response)
    requires db.Valid()
    requires id in db.properties && db.properties[id].createdBy == caller
    modifies db`properties, db`order, db`cache, db`storeReads
    ensures db.Valid()
    ensures deleted.Ok? && seen == NotFound
    ensures db.storeReads == old(db.storeReads) + 1
  {
    deleted := DeleteProperty(db, caller, id);
    seen := GetProperty(db, id);
  }

  /** After recommending a property to the user with `recipient`'s email, that user's
      next listing comes from the store and ends with the new recommendation. */
  method RecommendThenGet(db: Stores, caller: Id, propertyId: Id, recipient: Id, now: int)
    returns (listed: Response)
    requires db.Valid()
    requires recipient in db.users
    modifies db`recommendations, db`cache, db`storeReads
    ensures db.Valid()
    ensures var rec := Recommendation(caller, recipient, propertyId, now);
            listed == Ok(Envelope(FromStoreMessage, RecommendationList(
              RecommendationsFor(old(db.recommendations), recipient) + [rec])))
  {
    var email := db.users[recipient].email;
    var created := RecommendProperty(db, caller, propertyId, email, now);
    AppendRecommendationRecipient(old(db.recommendations), Recommendation(caller, recipient, propertyId, now));
    listed := GetRecommendations(db, recipient);
  }

  /** Adding the same favourite twice stores two records, and the caller's next listing
      ends with both. */
  method AddFavoriteTwice(db: Stores, caller: Id, propertyId: Id) returns (listed: Response)
    requires db.Valid()
    modifies db`favourites, db`cache, db`storeReads
    ensures db.Valid()
    ensures var f := Favourite(caller, propertyId);
            db.favourites == old(db.favourites) + [f, f] &&
            listed == Ok(FavouriteList(FavouritesOf(old(db.favourites), caller) + [f, f]))
  {
    var f := Favourite(caller, propertyId);
    ghost var favourites0 := db.favourites;
    var first := AddFavorite(db, caller, propertyId);
    AppendFavouriteOwner(favourites0, f);
    var second := AddFavorite(db, caller, propertyId);
    AppendFavouriteOwner(favourites0 + [f], f);
    assert favourites0 + [f] + [f] == favourites0 + [f, f];
    assert FavouritesOf(favourites0, caller) + [f] + [f] == FavouritesOf(favourites0, caller) + [f, f];
    listed := GetFavorites(db, caller);
  }
}
