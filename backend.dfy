/** The two shared stores every handler works against: the durable store (four
    collections) and the key-value cache, together with the documents handlers
    return and cache, and the invariant that ties the cache to the store. */
module Backend {
  import opened Models
  import opened CacheKeys
  import opened Collections

  /** A JSON document as a handler sends it and as the cache holds it (the model
      keeps the structured value instead of its serialised text). */
  datatype Doc =
    | PropertyDoc(property: Property)
    | PageDoc(properties: seq<Property>, hasMore: bool)
    | PropertyList(properties: seq<Property>)
    | FavouriteDoc(favourite: Favourite)
    | FavouriteList(favourites: seq<Favourite>)
    | RecommendationDoc(recommendation: Recommendation)
    | RecommendationList(recommendations: seq<Recommendation>)
    | Envelope(message: string, data: Doc)
    | Message(text: string)

  /** The HTTP outcome of a handler: 200, 201, 404, 403, or 500 when the store rejects the query. */
  datatype Response = Ok(body: Doc) | Created(body: Doc) | NotFound | Forbidden | ServerError

  /** `Favourite.find({ userId })`. */
  function FavouritesOf(favourites: seq<Favourite>, userId: Id): seq<Favourite> {
    Filter(favourites, (f: Favourite) => f.userId == userId)
  }

  /** `Recommendation.find({ toUserId })`. */
  function RecommendationsFor(recommendations: seq<Recommendation>, userId: Id): seq<Recommendation> {
    Filter(recommendations, (r: Recommendation) => r.toUserId == userId)
  }

  /** What an entry under key `k` may hold over the given collections, by the key's
      family and the id the key ends with. */
  predicate Coherent(properties: map<Id, Property>, favourites: seq<Favourite>,
                     recommendations: seq<Recommendation>, k: string, entry: Doc)
  {
    match FamilyOf(k)
    case PropertyKeys =>
      var id := k[|PropertyPrefix|..];
      id in properties && entry == PropertyDoc(properties[id])
    case FavoritesKeys =>
      entry == FavouriteList(FavouritesOf(favourites, k[|FavoritesPrefix|..]))
    case RecommendationsKeys =>
      entry == RecommendationList(RecommendationsFor(recommendations, k[|RecommendationsPrefix|..]))
    case PageKeys => true
    case SearchKeys => true
    case Unclassified => false
  }

  /** A change to one property leaves every entry coherent except the one under that
      property's key. */
  lemma PropertyWriteCoherent(properties: map<Id, Property>, properties': map<Id, Property>,
                              favourites: seq<Favourite>, recommendations: seq<Recommendation>,
                              id: Id, k: string, entry: Doc)
    requires Coherent(properties, favourites, recommendations, k, entry)
    requires k != PropertyKey(id)
    requires forall x :: x != id ==> (x in properties <==> x in properties')
    requires forall x :: x != id && x in properties ==> properties'[x] == properties[x]
    ensures Coherent(properties', favourites, recommendations, k, entry)
  {
    if FamilyOf(k) == PropertyKeys {
      PropertyKeyOfSuffix(k);
    }
  }

  /** A change to one user's favourites leaves every entry coherent except the one under
      that user's favourites key. */
  lemma FavouriteWriteCoherent(properties: map<Id, Property>, favourites: seq<Favourite>,
                               favourites': seq<Favourite>, recommendations: seq<Recommendation>,
                               userId: Id, k: string, entry: Doc)
    requires Coherent(properties, favourites, recommendations, k, entry)
    requires k != FavoritesKey(userId)
    requires forall u :: u != userId ==> FavouritesOf(favourites', u) == FavouritesOf(favourites, u)
    ensures Coherent(properties, favourites', recommendations, k, entry)
  {
    if FamilyOf(k) == FavoritesKeys {
      FavoritesKeyOfSuffix(k);
    }
  }

  /** A change to the recommendations one user receives leaves every entry coherent except
      the one under that user's recommendations key. */
  lemma RecommendationWriteCoherent(properties: map<Id, Property>, favourites: seq<Favourite>,
                                    recommendations: seq<Recommendation>,
                                    recommendations': seq<Recommendation>,
                                    userId: Id, k: string, entry: Doc)
    requires Coherent(properties, favourites, recommendations, k, entry)
    requires k != RecommendationsKey(userId)
    requires forall u :: u != userId ==>
      RecommendationsFor(recommendations', u) == RecommendationsFor(recommendations, u)
    ensures Coherent(properties, favourites, recommendations', k, entry)
  {
    if FamilyOf(k) == RecommendationsKeys {
      RecommendationsKeyOfSuffix(k);
    }
  }

  class Stores {
    /** The property collection by id, and its natural order. */
    var properties: map<Id, Property>
    var order: seq<Id>
    /** The favourite and recommendation collections in natural order; duplicates allowed. */
    var favourites: seq<Favourite>
    var recommendations: seq<Recommendation>
    var users: map<Id, User>
    /** The key-value cache. */
    var cache: map<string, Doc>
    /** How many queries the read handlers have sent to the durable store on a cache miss.
        The writes' own lookups and saves are not counted. */
    ghost var storeReads: nat

    ghost predicate Valid()
      reads this
    {
      StoreValid() && CacheValid()
    }

    /** The natural order lists each stored property once; each record carries its own
        id; user emails are unique. */
    ghost predicate StoreValid()
      reads this
    {
      NoDup(order) &&
      (forall id :: id in properties <==> id in order) &&
      (forall id :: id in properties ==> properties[id].id == id) &&
      UniqueEmails(users)
    }

    /** Every entry lies under a key some handler writes (so never under `properties`),
        and every entry under a key that the writes invalidate by name agrees with the
        store. Page and search entries are left unconstrained: writes never delete them. */
    ghost predicate CacheValid()
      reads this
    {
      forall k :: k in cache ==> Coherent(properties, favourites, recommendations, k, cache[k])
    }

    /** `Property.find()`: every stored property in natural order. */
    function Catalogue(): (c: seq<Property>)
      reads this
      requires StoreValid()
      ensures |c| == |order|
      ensures forall p :: p in c ==> p.id in properties && properties[p.id] == p
      ensures forall id :: id in properties ==> properties[id] in c
      ensures forall i, j :: 0 <= i < j < |c| ==> c[i].id != c[j].id
    {
      Listing(properties, order)
    }

    /** Fresh, empty collections and an empty cache over a given user collection. */
    constructor (users: map<Id, User>)
      requires UniqueEmails(users)
      ensures Valid()
      ensures this.users == users && properties == map[] && order == []
      ensures favourites == [] && recommendations == [] && cache == map[] && storeReads == 0
    {
      this.users := users;
      properties := map[];
      order := [];
      favourites := [];
      recommendations := [];
      cache := map[];
      storeReads := 0;
    }

    /** Nothing is ever cached under `properties`, the key the property writes delete. */
    lemma ListKeyNeverCached()
      requires Valid()
      ensures ListKey !in cache
      ensures cache - {ListKey} == cache
    {
      ListKeyUnclassified();
    }
  }
}
