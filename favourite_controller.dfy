/** The favourite handlers: add, list and remove the caller's favourites, each deleting
    or filling only the caller's `favorites:` entry. */
module FavouriteController {
  import opened Models
  import opened CacheKeys
  import opened Collections
  import opened Backend

  /** Appending a favourite changes only its owner's view of the collection. */
  lemma AppendFavouriteOthers(favourites: seq<Favourite>, f: Favourite, u: Id)
    requires u != f.userId
    ensures FavouritesOf(favourites + [f], u) == FavouritesOf(favourites, u)
  {
    FilterAppend(favourites, f, (x: Favourite) => x.userId == u);
  }

  /** The owner's view gains exactly the new favourite, at the end. */
  lemma AppendFavouriteOwner(favourites: seq<Favourite>, f: Favourite)
    ensures FavouritesOf(favourites + [f], f.userId) == FavouritesOf(favourites, f.userId) + [f]
  {
    FilterAppend(favourites, f, (x: Favourite) => x.userId == f.userId);
  }

  /** Removing a favourite changes only its owner's view of the collection. */
  lemma RemoveFavouriteOthers(favourites: seq<Favourite>, f: Favourite, u: Id)
    requires u != f.userId
    ensures FavouritesOf(RemoveFirst(favourites, f), u) == FavouritesOf(favourites, u)
  {
    FilterRemoveFirst(favourites, f, (x: Favourite) => x.userId == u);
  }

  /** Removing a favourite and deleting its owner's favourites entry keeps every other
      entry coherent. */
  lemma RemovalKeepsCacheCoherent(properties: map<Id, Property>, favourites: seq<Favourite>,
                                  recommendations: seq<Recommendation>, cache: map<string, Doc>,
                                  f: Favourite)
    requires forall k :: k in cache ==> Coherent(properties, favourites, recommendations, k, cache[k])
    ensures var cache' := cache - {FavoritesKey(f.userId)};
            forall k :: k in cache' ==>
              Coherent(properties, RemoveFirst(favourites, f), recommendations, k, cache'[k])
  {
    var favourites' := RemoveFirst(favourites, f);
    forall u | u != f.userId
      ensures FavouritesOf(favourites', u) == FavouritesOf(favourites, u)
    {
      RemoveFavouriteOthers(favourites, f, u);
    }
    forall k | k in cache && k != FavoritesKey(f.userId)
      ensures Coherent(properties, favourites', recommendations, k, cache[k])
    {
      FavouriteWriteCoherent(properties, favourites, favourites', recommendations, f.userId, k, cache[k]);
    }
  }

  /** `POST /favorites`: appends `(caller, propertyId)` with no duplicate check (and no
      check that the property exists), then deletes only the caller's favourites entry. */
  method AddFavorite(db: Stores, caller: Id, propertyId: Id) returns (r: Response)
    requires db.Valid()
    modifies db`favourites, db`cache
    ensures db.Valid()
    ensures r == Created(FavouriteDoc(Favourite(caller, propertyId)))
    ensures db.favourites == old(db.favourites) + [Favourite(caller, propertyId)]
    ensures db.cache == old(db.cache) - {FavoritesKey(caller)}
  {
    var favourite := Favourite(caller, propertyId);
    ghost var favourites0 := db.favourites;
    db.favourites := db.favourites + [favourite];
    db.cache := db.cache - {FavoritesKey(caller)};
    forall u | u != caller
      ensures FavouritesOf(db.favourites, u) == FavouritesOf(favourites0, u)
    {
      AppendFavouriteOthers(favourites0, favourite, u);
    }
    forall k | k in db.cache
      ensures Coherent(db.properties, db.favourites, db.recommendations, k, db.cache[k])
    {
      FavouriteWriteCoherent(db.properties, favourites0, db.favourites, db.recommendations,
                             caller, k, db.cache[k]);
    }
    r := Created(FavouriteDoc(favourite));
  }

  /** `GET /favorites`, cache-aside. On either path the answer is exactly the caller's
      favourites in stored order. */
  method GetFavorites(db: Stores, caller: Id) returns (r: Response)
    requires db.Valid()
    modifies db`cache, db`storeReads
    ensures db.Valid()
    ensures FavoritesKey(caller) in old(db.cache) ==>
      r == Ok(old(db.cache)[FavoritesKey(caller)]) && db.cache == old(db.cache) &&
      db.storeReads == old(db.storeReads)
    ensures FavoritesKey(caller) !in old(db.cache) ==>
      db.cache == old(db.cache)[FavoritesKey(caller) := FavouriteList(FavouritesOf(db.favourites, caller))] &&
      db.storeReads == old(db.storeReads) + 1
    ensures r == Ok(FavouriteList(FavouritesOf(db.favourites, caller)))
  {
    var key := FavoritesKey(caller);
    if key in db.cache {
      return Ok(db.cache[key]);
    }
    db.storeReads := db.storeReads + 1;
    var favourites := Filter(db.favourites, (f: Favourite) => f.userId == caller);
    db.cache := db.cache[key := FavouriteList(favourites)];
    r := Ok(FavouriteList(favourites));
  }

  /** `DELETE /favorites/:propertyId`: removes the first matching record, if any, deletes
      only the caller's favourites entry, and reports success either way. */
  method RemoveFavorite(db: Stores, caller: Id, propertyId: Id) returns (r: Response)
    requires db.Valid()
    modifies db`favourites, db`cache
    ensures db.Valid()
    ensures r == Ok(Message("Removed from favorites"))
    ensures db.favourites == RemoveFirst(old(db.favourites), Favourite(caller, propertyId))
    ensures multiset(db.favourites) == multiset(old(db.favourites)) - multiset{Favourite(caller, propertyId)}
    ensures db.cache == old(db.cache) - {FavoritesKey(caller)}
  {
    var favourite := Favourite(caller, propertyId);
    RemovalKeepsCacheCoherent(db.properties, db.favourites, db.recommendations, db.cache, favourite);
    RemoveFirstMultiset(db.favourites, favourite);
    db.favourites := RemoveFirst(db.favourites, favourite);
    db.cache := db.cache - {FavoritesKey(caller)};
    r := Ok(Message("Removed from favorites"));
  }
}
