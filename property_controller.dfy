/** The property handlers: create, the paginated list, read one, update, delete and
    search, each against the shared stores, with the cache reads, fills and deletions
    they perform. */
module PropertyController {
  import opened Models
  import opened CacheKeys
  import opened Collections
  import opened Pagination
  import opened Backend
  import Search

  /** Stores a new property owned by the caller and deletes the cache key `properties`.
      Nothing is ever cached under that key, so the cache is in fact unchanged: every
      cached page and search result stays as it was. */
  method CreateProperty(db: Stores, caller: Id, body: PropertyBody, newId: Id, now: int)
    returns (r: Response)
    requires db.Valid()
    requires newId !in db.properties
    modifies db`properties, db`order, db`cache
    ensures db.Valid()
    ensures r == Created(PropertyDoc(FromBody(newId, body, caller, now)))
    ensures db.properties == old(db.properties)[newId := FromBody(newId, body, caller, now)]
    ensures db.order == old(db.order) + [newId]
    ensures db.cache == old(db.cache) - {ListKey}
    ensures db.cache == old(db.cache)
  {
    db.ListKeyNeverCached();
    var property := FromBody(newId, body, caller, now);
    ghost var properties0 := db.properties;
    db.properties := db.properties[newId := property];
    db.order := db.order + [newId];
    db.cache := db.cache - {ListKey};
    forall k | k in db.cache
      ensures Coherent(db.properties, db.favourites, db.recommendations, k, db.cache[k])
    {
      PropertyWriteCoherent(properties0, db.properties, db.favourites, db.recommendations,
                            newId, k, db.cache[k]);
    }
    r := Created(PropertyDoc(property));
  }

  /** The page the list handler answers with, read from the store. */
  function PageFromStore(catalogue: seq<Property>, page: int, limit: int): (d: Doc)
    requires Skip(page, limit) >= 0
    ensures d.PageDoc? && d.hasMore == (page * limit < |catalogue|)
    ensures Skip(page, limit) >= |catalogue| ==> d.properties == []
    ensures Skip(page, limit) < |catalogue| ==>
      |d.properties| == Min(Take(limit), |catalogue| - Skip(page, limit))
    ensures forall i :: 0 <= i < |d.properties| ==> d.properties[i] == catalogue[Skip(page, limit) + i]
  {
    PageDoc(PageOf(catalogue, Skip(page, limit), Take(limit)), HasMore(page, limit, |catalogue|))
  }

  /** `GET /properties?page&limit`: the page entry if cached, otherwise the store's page,
      which it then caches. A negative skip is a query the store rejects (500). */
  method GetProperties(db: Stores, pageQuery: Option<int>, limitQuery: Option<int>)
    returns (r: Response)
    requires db.Valid()
    modifies db`cache, db`storeReads
    ensures db.Valid()
    ensures var page, limit := ParamOr(pageQuery, DefaultPage), ParamOr(limitQuery, DefaultLimit);
            var key := PageKey(page, limit);
            if key in old(db.cache) then
              r == Ok(old(db.cache)[key]) && db.cache == old(db.cache) && db.storeReads == old(db.storeReads)
            else if Skip(page, limit) < 0 then
              r == ServerError && db.cache == old(db.cache) && db.storeReads == old(db.storeReads) + 1
            else
              r == Ok(PageFromStore(db.Catalogue(), page, limit)) &&
              db.cache == old(db.cache)[key := r.body] && db.storeReads == old(db.storeReads) + 1
  {
    var page := ParamOr(pageQuery, DefaultPage);
    var limit := ParamOr(limitQuery, DefaultLimit);
    var skip := Skip(page, limit);
    var key := PageKey(page, limit);
    if key in db.cache {
      return Ok(db.cache[key]);
    }
    db.storeReads := db.storeReads + 1;
    if skip < 0 {
      return ServerError;
    }
    var response := PageFromStore(db.Catalogue(), page, limit);
    db.cache := db.cache[key := response];
    r := Ok(response);
  }

  /** `GET /properties/:id`, cache-aside. Whatever the path, the answer is what the store
      holds: the cached entry, when there is one, is the stored record. */
  method GetProperty(db: Stores, id: Id) returns (r: Response)
    requires db.Valid()
    modifies db`cache, db`storeReads
    ensures db.Valid()
    ensures PropertyKey(id) in old(db.cache) ==>
      r == Ok(old(db.cache)[PropertyKey(id)]) && db.cache == old(db.cache) &&
      db.storeReads == old(db.storeReads)
    ensures PropertyKey(id) !in old(db.cache) && id in db.properties ==>
      db.cache == old(db.cache)[PropertyKey(id) := PropertyDoc(db.properties[id])] &&
      db.storeReads == old(db.storeReads) + 1
    ensures PropertyKey(id) !in old(db.cache) && id !in db.properties ==>
      db.cache == old(db.cache) && db.storeReads == old(db.storeReads) + 1
    ensures id in db.properties ==> r == Ok(PropertyDoc(db.properties[id]))
    ensures id !in db.properties ==> r == NotFound
  {
    var key := PropertyKey(id);
    if key in db.cache {
      return Ok(db.cache[key]);
    }
    db.storeReads := db.storeReads + 1;
    if id !in db.properties {
      return NotFound;
    }
    var property := db.properties[id];
    db.cache := db.cache[key := PropertyDoc(property)];
    r := Ok(PropertyDoc(property));
  }

  /** `PUT /properties/:id`: only the creator may update. A missing record or another
      caller changes nothing; a successful update deletes `property:<id>` and `properties`. */
  method UpdateProperty(db: Stores, caller: Id, id: Id, patch: PropertyPatch) returns (r: Response)
    requires db.Valid()
    modifies db`properties, db`cache
    ensures db.Valid()
    ensures id !in old(db.properties) ==>
      r == NotFound && db.properties == old(db.properties) && db.cache == old(db.cache)
    ensures id in old(db.properties) && old(db.properties)[id].createdBy != caller ==>
      r == Forbidden && db.properties == old(db.properties) && db.cache == old(db.cache)
    ensures id in old(db.properties) && old(db.properties)[id].createdBy == caller ==>
      var updated := ApplyPatch(old(db.properties)[id], patch);
      r == Ok(PropertyDoc(updated)) &&
      db.properties == old(db.properties)[id := updated] &&
      db.cache == old(db.cache) - {PropertyKey(id), ListKey}
  {
    if id !in db.properties {
      return NotFound;
    }
    var property := db.properties[id];
    if property.createdBy != caller {
      return Forbidden;
    }
    var updated := ApplyPatch(property, patch);
    ghost var properties0 := db.properties;
    db.properties := db.properties[id := updated];
    db.cache := db.cache - {PropertyKey(id), ListKey};
    forall k | k in db.cache
      ensures Coherent(db.properties, db.favourites, db.recommendations, k, db.cache[k])
    {
      PropertyWriteCoherent(properties0, db.properties, db.favourites, db.recommendations,
                            id, k, db.cache[k]);
    }
    r := Ok(PropertyDoc(updated));
  }

  /** `DELETE /properties/:id`: only the creator may delete. A missing record or another
      caller changes nothing; a successful delete removes that one record (favourites and
      recommendations naming it stay) and deletes `property:<id>` and `properties`. */
  method DeleteProperty(db: Stores, caller: Id, id: Id) returns (r: Response)
    requires db.Valid()
    modifies db`properties, db`order, db`cache
    ensures db.Valid()
    ensures id !in old(db.properties) ==>
      r == NotFound && db.properties == old(db.properties) && db.order == old(db.order) &&
      db.cache == old(db.cache)
    ensures id in old(db.properties) && old(db.properties)[id].createdBy != caller ==>
      r == Forbidden && db.properties == old(db.properties) && db.order == old(db.order) &&
      db.cache == old(db.cache)
    ensures id in old(db.properties) && old(db.properties)[id].createdBy == caller ==>
      r == Ok(Message("Property deleted successfully")) &&
      db.properties == old(db.properties) - {id} &&
      db.order == RemoveId(old(db.order), id) && |db.order| == |old(db.order)| - 1 &&
      db.cache == old(db.cache) - {PropertyKey(id), ListKey}
  {
    if id !in db.properties {
      return NotFound;
    }
    var property := db.properties[id];
    if property.createdBy != caller {
      return Forbidden;
    }
    ghost var properties0 := db.properties;
    db.properties := db.properties - {id};
    db.order := RemoveId(db.order, id);
    db.cache := db.cache - {PropertyKey(id), ListKey};
    forall k | k in db.cache
      ensures Coherent(db.properties, db.favourites, db.recommendations, k, db.cache[k])
    {
      PropertyWriteCoherent(properties0, db.properties, db.favourites, db.recommendations,
                            id, k, db.cache[k]);
    }
    r := Ok(Message("Property deleted successfully"));
  }

  /** `GET /properties/search`: builds the filter object field by field, then the
      cached entry under its key if any, otherwise the matching stored properties in
      natural order, which it then caches. */
  method SearchProperties(db: Stores, params: Search.Params) returns (r: Response)
    requires db.Valid()
    modifies db`cache, db`storeReads
    ensures db.Valid()
    ensures Search.KeyOf(params) in old(db.cache) ==>
      r == Ok(old(db.cache)[Search.KeyOf(params)]) && db.cache == old(db.cache) &&
      db.storeReads == old(db.storeReads)
    ensures Search.KeyOf(params) !in old(db.cache) ==>
      r == Ok(PropertyList(Search.Results(db.Catalogue(), params))) &&
      db.cache == old(db.cache)[Search.KeyOf(params) := r.body] &&
      db.storeReads == old(db.storeReads) + 1
  {
    var query := Search.BuildQuery(params);
    var key := SearchKey(Search.Serialize(query));
    if key in db.cache {
      return Ok(db.cache[key]);
    }
    db.storeReads := db.storeReads + 1;
    var found := Filter(db.Catalogue(), (p: Property) => Search.Matches(p, query));
    db.cache := db.cache[key := PropertyList(found)];
    r := Ok(PropertyList(found));
  }
}
