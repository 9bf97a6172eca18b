/** Record shapes of the four collections (the files under models/), and the two ways a
    Property record is produced from a request body: creation and update. */
module Models {

  datatype Option<T> = None | Some(value: T)

  /** Identifiers (ObjectIds, user ids) are compared and embedded in cache keys as strings. */
  type Id = string

  datatype Location = Location(address: string, city: string, state: string, zipCode: string, country: string)

  /** A stored property. Numbers are integers in this model; `createdAt` is a timestamp. */
  datatype Property = Property(
    id: Id,
    title: string,
    description: string,
    price: int,
    location: Location,
    bedrooms: int,
    bathrooms: int,
    area: int,
    propertyType: string,
    status: string,
    createdBy: Id,
    createdAt: int)

  datatype Favourite = Favourite(userId: Id, propertyId: Id)

  datatype Recommendation = Recommendation(fromUserId: Id, toUserId: Id, propertyId: Id, createdAt: int)

  datatype User = User(email: string, password: string, name: string)

  /** The body of a create request: every field of a property, where the caller
      may also supply `createdBy` and `createdAt` of their own. */
  datatype PropertyBody = PropertyBody(
    title: string,
    description: string,
    price: int,
    location: Location,
    bedrooms: int,
    bathrooms: int,
    area: int,
    propertyType: string,
    status: string,
    createdBy: Option<Id>,
    createdAt: Option<int>)

  /** The body of an update request: any subset of the fields. A given `location`
      replaces the whole sub-document. */
  datatype PropertyPatch = PropertyPatch(
    title: Option<string>,
    description: Option<string>,
    price: Option<int>,
    location: Option<Location>,
    bedrooms: Option<int>,
    bathrooms: Option<int>,
    area: Option<int>,
    propertyType: Option<string>,
    status: Option<string>,
    createdBy: Option<Id>,
    createdAt: Option<int>)

  function Or<T>(o: Option<T>, default: T): T {
    if o.Some? then o.value else default
  }

  /** `new Property({ ...req.body, createdBy: req.userId })`: the caller overrides any
      `createdBy` in the body; `createdAt` defaults to the clock reading `now`. */
  function FromBody(id: Id, body: PropertyBody, caller: Id, now: int): (p: Property)
    ensures p.id == id && p.createdBy == caller
    ensures p.createdAt == Or(body.createdAt, now)
    ensures p.title == body.title && p.description == body.description
    ensures p.price == body.price && p.location == body.location
    ensures p.bedrooms == body.bedrooms && p.bathrooms == body.bathrooms && p.area == body.area
    ensures p.propertyType == body.propertyType && p.status == body.status
  {
    Property(id, body.title, body.description, body.price, body.location, body.bedrooms,
             body.bathrooms, body.area, body.propertyType, body.status, caller, Or(body.createdAt, now))
  }

  /** The `createdBy` a body supplies never reaches the stored record. */
  lemma CreatorIgnoresBody(id: Id, body: PropertyBody, caller: Id, now: int, claimed: Option<Id>)
    ensures FromBody(id, body.(createdBy := claimed), caller, now) == FromBody(id, body, caller, now)
    ensures FromBody(id, body.(createdBy := claimed), caller, now).createdBy == caller
  {
  }

  /** `findByIdAndUpdate(id, body, { new: true })`: fields present in the patch
      replace the stored ones, the others and the id are kept. */
  function ApplyPatch(p: Property, patch: PropertyPatch): (q: Property)
    ensures q.id == p.id
    ensures (patch.title.Some? ==> q.title == patch.title.value) && (patch.title.None? ==> q.title == p.title)
    ensures (patch.description.Some? ==> q.description == patch.description.value) && (patch.description.None? ==> q.description == p.description)
    ensures (patch.price.Some? ==> q.price == patch.price.value) && (patch.price.None? ==> q.price == p.price)
    ensures (patch.location.Some? ==> q.location == patch.location.value) && (patch.location.None? ==> q.location == p.location)
    ensures (patch.bedrooms.Some? ==> q.bedrooms == patch.bedrooms.value) && (patch.bedrooms.None? ==> q.bedrooms == p.bedrooms)
    ensures (patch.bathrooms.Some? ==> q.bathrooms == patch.bathrooms.value) && (patch.bathrooms.None? ==> q.bathrooms == p.bathrooms)
    ensures (patch.area.Some? ==> q.area == patch.area.value) && (patch.area.None? ==> q.area == p.area)
    ensures (patch.propertyType.Some? ==> q.propertyType == patch.propertyType.value) && (patch.propertyType.None? ==> q.propertyType == p.propertyType)
    ensures (patch.status.Some? ==> q.status == patch.status.value) && (patch.status.None? ==> q.status == p.status)
    ensures (patch.createdBy.Some? ==> q.createdBy == patch.createdBy.value) && (patch.createdBy.None? ==> q.createdBy == p.createdBy)
    ensures (patch.createdAt.Some? ==> q.createdAt == patch.createdAt.value) && (patch.createdAt.None? ==> q.createdAt == p.createdAt)
  {
    Property(p.id,
             Or(patch.title, p.title),
             Or(patch.description, p.description),
             Or(patch.price, p.price),
             Or(patch.location, p.location),
             Or(patch.bedrooms, p.bedrooms),
             Or(patch.bathrooms, p.bathrooms),
             Or(patch.area, p.area),
             Or(patch.propertyType, p.propertyType),
             Or(patch.status, p.status),
             Or(patch.createdBy, p.createdBy),
             Or(patch.createdAt, p.createdAt))
  }

  const EmptyPatch := PropertyPatch(None, None, None, None, None, None, None, None, None, None, None)

  /** Applying the same update twice is the same as applying it once, and the empty update changes nothing. */
  lemma ApplyPatchIdempotent(p: Property, patch: PropertyPatch)
    ensures ApplyPatch(ApplyPatch(p, patch), patch) == ApplyPatch(p, patch)
    ensures ApplyPatch(p, EmptyPatch) == p
  {
  }

  /** Emails are unique among users (the `unique: true` index of the user schema). */
  ghost predicate UniqueEmails(users: map<Id, User>) {
    forall a, b :: a in users && b in users && users[a].email == users[b].email ==> a == b
  }
}
