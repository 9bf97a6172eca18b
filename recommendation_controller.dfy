/** The recommendation handlers: recommend a property to the user with a given email,
    and list the recommendations the caller has received. */
module RecommendationController {
  import opened Models
  import opened CacheKeys
  import opened Collections
  import opened Backend

  const CreatedMessage := "Recommendation created successfully"
  const FromCacheMessage := "Recommendations fetched successfully from cache"
  const FromStoreMessage := "Recommendations fetched successfully"

  /** Some user has this email. */
  predicate Registered(users: map<Id, User>, email: string) {
    exists id :: id in users && users[id].email == email
  }

  /** Appending a recommendation changes only its recipient's view of the collection. */
  lemma AppendRecommendationOthers(recommendations: seq<Recommendation>, rec: Recommendation, u: Id)
    requires u != rec.toUserId
    ensures RecommendationsFor(recommendations + [rec], u) == RecommendationsFor(recommendations, u)
  {
    FilterAppend(recommendations, rec, (x: Recommendation) => x.toUserId == u);
  }

  /** The recipient's view gains exactly the new recommendation, at the end. */
  lemma AppendRecommendationRecipient(recommendations: seq<Recommendation>, rec: Recommendation)
    ensures RecommendationsFor(recommendations + [rec], rec.toUserId) ==
            RecommendationsFor(recommendations, rec.toUserId) + [rec]
  {
    FilterAppend(recommendations, rec, (x: Recommendation) => x.toUserId == rec.toUserId);
  }

  /** `POST /recommendations`: looks the recipient up by email. Without such a user
      nothing changes (404). Otherwise it stores a recommendation from the caller to that
      user and deletes only the recipient's recommendations entry. */
  method RecommendProperty(db: Stores, caller: Id, propertyId: Id, recipientEmail: string, now: int)
    returns (r: Response)
    requires db.Valid()
    modifies db`recommendations, db`cache
    ensures db.Valid()
    ensures !Registered(db.users, recipientEmail) ==>
      r == NotFound && db.recommendations == old(db.recommendations) && db.cache == old(db.cache)
    ensures forall id :: id in db.users && db.users[id].email == recipientEmail ==>
      var rec := Recommendation(caller, id, propertyId, now);
      r == Created(Envelope(CreatedMessage, RecommendationDoc(rec))) &&
      db.recommendations == old(db.recommendations) + [rec] &&
      db.cache == old(db.cache) - {RecommendationsKey(id)}
  {
    if !Registered(db.users, recipientEmail) {
      return NotFound;
    }
    var recipient :| recipient in db.users && db.users[recipient].email == recipientEmail;
    var rec := Recommendation(caller, recipient, propertyId, now);
    ghost var recommendations0 := db.recommendations;
    db.recommendations := db.recommendations + [rec];
    db.cache := db.cache - {RecommendationsKey(recipient)};
    forall u | u != recipient
      ensures RecommendationsFor(db.recommendations, u) == RecommendationsFor(recommendations0, u)
    {
      AppendRecommendationOthers(recommendations0, rec, u);
    }
    forall k | k in db.cache
      ensures Coherent(db.properties, db.favourites, db.recommendations, k, db.cache[k])
    {
      RecommendationWriteCoherent(db.properties, db.favourites, recommendations0, db.recommendations,
                                  recipient, k, db.cache[k]);
    }
    r := Created(Envelope(CreatedMessage, RecommendationDoc(rec)));
  }

  /** `GET /recommendations`, cache-aside, with a message telling the two paths apart.
      On either path the data is exactly the recommendations addressed to the caller. */
  method GetRecommendations(db: Stores, caller: Id) returns (r: Response)
    requires db.Valid()
    modifies db`cache, db`storeReads
    ensures db.Valid()
    ensures var data := RecommendationList(RecommendationsFor(db.recommendations, caller));
            if RecommendationsKey(caller) in old(db.cache) then
              r == Ok(Envelope(FromCacheMessage, data)) && db.cache == old(db.cache) &&
              db.storeReads == old(db.storeReads)
            else
              r == Ok(Envelope(FromStoreMessage, data)) &&
              db.cache == old(db.cache)[RecommendationsKey(caller) := data] &&
              db.storeReads == old(db.storeReads) + 1
  {
    var key := RecommendationsKey(caller);
    if key in db.cache {
      return Ok(Envelope(FromCacheMessage, db.cache[key]));
    }
    db.storeReads := db.storeReads + 1;
    var recommendations := Filter(db.recommendations, (x: Recommendation) => x.toUserId == caller);
    db.cache := db.cache[key := RecommendationList(recommendations)];
    r := Ok(Envelope(FromStoreMessage, RecommendationList(recommendations)));
  }
}
