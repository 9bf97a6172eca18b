/** The property search: the filter object built from the query parameters,
    field by field in a fixed order, its serialisation into the `search:` cache
    key, and what it means for a stored property to match it. */
module Search {
  import opened Models
  import CacheKeys
  import Collections

  /** The recognised query parameters, already typed. `None` stands for a parameter
      that is absent or empty, which the handler's `if (req.query.x)` skips. */
  datatype Params = Params(
    city: Option<string>,
    state: Option<string>,
    country: Option<string>,
    minPrice: Option<int>,
    maxPrice: Option<int>,
    bedrooms: Option<int>,
    bathrooms: Option<int>,
    minArea: Option<int>,
    maxArea: Option<int>,
    propertyType: Option<string>,
    status: Option<string>)

  /** The keys the filter object can hold, in the order the handler adds them. */
  datatype Field = City | State | Country | Price | Bedrooms | Bathrooms | Area | Type | Status

  const FieldCount := 9

  function Rank(f: Field): (r: nat)
    ensures r < FieldCount
  {
    match f
    case City => 0
    case State => 1
    case Country => 2
    case Price => 3
    case Bedrooms => 4
    case Bathrooms => 5
    case Area => 6
    case Type => 7
    case Status => 8
  }

  function FieldAt(k: nat): (f: Field)
    requires k < FieldCount
    ensures Rank(f) == k
  {
    if k == 0 then City else if k == 1 then State else if k == 2 then Country
    else if k == 3 then Price else if k == 4 then Bedrooms else if k == 5 then Bathrooms
    else if k == 6 then Area else if k == 7 then Type else Status
  }

  function FieldName(f: Field): string {
    match f
    case City => "location.city"
    case State => "location.state"
    case Country => "location.country"
    case Price => "price"
    case Bedrooms => "bedrooms"
    case Bathrooms => "bathrooms"
    case Area => "area"
    case Type => "type"
    case Status => "status"
  }

  /** A condition on one field: equality with a string or a number, or a range
      `{ $gte: lo, $lte: hi }` with either bound optional. */
  datatype Cond = Equals(text: string) | EqualsNum(n: int) | Between(lo: Option<int>, hi: Option<int>)

  datatype Clause = Clause(field: Field, cond: Cond)

  /** A filter object: its keys in insertion order, each with its condition. */
  type Query = seq<Clause>

  /** `query[f]`. */
  function Get(q: Query, f: Field): Option<Cond> {
    if q == [] then None else if q[0].field == f then Some(q[0].cond) else Get(q[1..], f)
  }

  /** `query[f] = c`: an existing key keeps its place and takes the new value; a new key goes last. */
  function Assign(q: Query, f: Field, c: Cond): (r: Query)
    ensures Get(r, f) == Some(c)
    ensures forall g :: g != f ==> Get(r, g) == Get(q, g)
  {
    if q == [] then [Clause(f, c)]
    else if q[0].field == f then [Clause(f, c)] + q[1..]
    else [q[0]] + Assign(q[1..], f, c)
  }

  /** The `$gte` bound of `query[f]`, which `{ ...query[f], $lte: hi }` carries over. */
  function LowerBound(c: Option<Cond>): Option<int> {
    if c.Some? && c.value.Between? then c.value.lo else None
  }

  /** `if (req.query.x) query[f] = req.query.x`, for a string parameter. */
  function SetGiven(q: Query, f: Field, v: Option<string>): Query {
    if v.Some? then Assign(q, f, Equals(v.value)) else q
  }

  /** `if (req.query.x) query[f] = Number(req.query.x)`. */
  function SetGivenNum(q: Query, f: Field, v: Option<int>): Query {
    if v.Some? then Assign(q, f, EqualsNum(v.value)) else q
  }

  /** `if (req.query.minX) query[f] = { $gte: minX }`. */
  function SetLower(q: Query, f: Field, lo: Option<int>): Query {
    if lo.Some? then Assign(q, f, Between(lo, None)) else q
  }

  /** `if (req.query.maxX) query[f] = { ...query[f], $lte: maxX }`. */
  function SetUpper(q: Query, f: Field, hi: Option<int>): Query {
    if hi.Some? then Assign(q, f, Between(LowerBound(Get(q, f)), hi)) else q
  }

  /** `searchProperties`, the lines building `query`: one conditional assignment per
      parameter, in a fixed order, starting from the empty object. */
  method BuildQuery(p: Params) returns (q: Query)
    ensures q == QueryOf(p)
  {
    q := [];
    q := SetGiven(q, City, p.city);
    q := SetGiven(q, State, p.state);
    q := SetGiven(q, Country, p.country);
    LocationStep(p, q);
    ghost var before := q;
    q := SetLower(q, Price, p.minPrice);
    q := SetUpper(q, Price, p.maxPrice);
    RangeStep(p, before, q, Price, p.minPrice, p.maxPrice);
    before := q;
    q := SetGivenNum(q, Bedrooms, p.bedrooms);
    q := SetGivenNum(q, Bathrooms, p.bathrooms);
    RoomsStep(p, before, q);
    before := q;
    q := SetLower(q, Area, p.minArea);
    q := SetUpper(q, Area, p.maxArea);
    RangeStep(p, before, q, Area, p.minArea, p.maxArea);
    before := q;
    q := SetGiven(q, Type, p.propertyType);
    q := SetGiven(q, Status, p.status);
    TypeStatusStep(p, before, q);
  }

  // ---------------------------------------------------------------------------
  // The reference definition: the canonical filter object.

  /** The condition the parameters put on field `f`, if any. The two bounds of a
      range merge into one condition. */
  function CondFor(p: Params, f: Field): Option<Cond> {
    match f
    case City => if p.city.Some? then Some(Equals(p.city.value)) else None
    case State => if p.state.Some? then Some(Equals(p.state.value)) else None
    case Country => if p.country.Some? then Some(Equals(p.country.value)) else None
    case Price => if p.minPrice.None? && p.maxPrice.None? then None else Some(Between(p.minPrice, p.maxPrice))
    case Bedrooms => if p.bedrooms.Some? then Some(EqualsNum(p.bedrooms.value)) else None
    case Bathrooms => if p.bathrooms.Some? then Some(EqualsNum(p.bathrooms.value)) else None
    case Area => if p.minArea.None? && p.maxArea.None? then None else Some(Between(p.minArea, p.maxArea))
    case Type => if p.propertyType.Some? then Some(Equals(p.propertyType.value)) else None
    case Status => if p.status.Some? then Some(Equals(p.status.value)) else None
  }

  function Piece(p: Params, f: Field): Query {
    if CondFor(p, f).Some? then [Clause(f, CondFor(p, f).value)] else []
  }

  /** The clauses for the first `k` fields in field order. */
  function Upto(p: Params, k: nat): Query
    requires k <= FieldCount
  {
    if k == 0 then [] else Upto(p, k - 1) + Piece(p, FieldAt(k - 1))
  }

  /** The canonical filter object: one clause per constrained field, in field order. */
  function QueryOf(p: Params): Query {
    Upto(p, FieldCount)
  }

  predicate Canonical(q: Query) {
    forall i, j :: 0 <= i < j < |q| ==> Rank(q[i].field) < Rank(q[j].field)
  }

  predicate Below(q: Query, k: nat) {
    forall i :: 0 <= i < |q| ==> Rank(q[i].field) < k
  }

  lemma {:induction false} UptoCanonical(p: Params, k: nat)
    requires k <= FieldCount
    ensures Below(Upto(p, k), k) && Canonical(Upto(p, k))
  {
    if k > 0 {
      UptoCanonical(p, k - 1);
    }
  }

  /** Every key appears at most once, and keys appear in the fixed field order
      whichever parameters are given. */
  lemma QueryOfCanonical(p: Params)
    ensures Canonical(QueryOf(p))
    ensures forall i, j :: 0 <= i < j < |QueryOf(p)| ==> QueryOf(p)[i].field != QueryOf(p)[j].field
  {
    UptoCanonical(p, FieldCount);
  }

  lemma {:induction false} GetOfBelow(q: Query, f: Field)
    requires Below(q, Rank(f))
    ensures Get(q, f) == None
  {
    if q != [] {
      GetOfBelow(q[1..], f);
    }
  }

  lemma {:induction false} AssignFresh(q: Query, f: Field, c: Cond)
    requires Below(q, Rank(f))
    ensures Assign(q, f, c) == q + [Clause(f, c)]
  {
    if q != [] {
      AssignFresh(q[1..], f, c);
    }
  }

  lemma {:induction false} AssignLast(q: Query, f: Field, c0: Cond, c: Cond)
    requires Below(q, Rank(f))
    ensures Get(q + [Clause(f, c0)], f) == Some(c0)
    ensures Assign(q + [Clause(f, c0)], f, c) == q + [Clause(f, c)]
  {
    if q != [] {
      assert (q + [Clause(f, c0)])[1..] == q[1..] + [Clause(f, c0)];
      AssignLast(q[1..], f, c0, c);
    }
  }

  /** Adding the clause of field number `k` to the clauses of the fields before it. */
  lemma AddNext(p: Params, k: nat)
    requires k < FieldCount
    ensures var prev := Upto(p, k);
            var c := CondFor(p, FieldAt(k));
            (if c.Some? then Assign(prev, FieldAt(k), c.value) else prev) == Upto(p, k + 1)
  {
    UptoCanonical(p, k);
    if CondFor(p, FieldAt(k)).Some? {
      AssignFresh(Upto(p, k), FieldAt(k), CondFor(p, FieldAt(k)).value);
    }
  }

  /** The city, state and country assignments of BuildQuery. */
  lemma LocationStep(p: Params, q: Query)
    requires q == SetGiven(SetGiven(SetGiven([], City, p.city), State, p.state), Country, p.country)
    ensures q == Upto(p, 3)
  {
    AddNext(p, 0);
    AddNext(p, 1);
    AddNext(p, 2);
  }

  /** The bedrooms and bathrooms assignments of BuildQuery. */
  lemma RoomsStep(p: Params, before: Query, q: Query)
    requires before == Upto(p, 4)
    requires q == SetGivenNum(SetGivenNum(before, Bedrooms, p.bedrooms), Bathrooms, p.bathrooms)
    ensures q == Upto(p, 6)
  {
    AddNext(p, 4);
    AddNext(p, 5);
  }

  /** The type and status assignments of BuildQuery. */
  lemma TypeStatusStep(p: Params, before: Query, q: Query)
    requires before == Upto(p, 7)
    requires q == SetGiven(SetGiven(before, Type, p.propertyType), Status, p.status)
    ensures q == Upto(p, 9)
  {
    AddNext(p, 7);
    AddNext(p, 8);
  }

  /** The two assignments of a range field in BuildQuery merge into one clause. */
  lemma RangeStep(p: Params, before: Query, q: Query, f: Field, lo: Option<int>, hi: Option<int>)
    requires f == Price || f == Area
    requires f == Price ==> lo == p.minPrice && hi == p.maxPrice
    requires f == Area ==> lo == p.minArea && hi == p.maxArea
    requires before == Upto(p, Rank(f))
    requires q == SetUpper(SetLower(before, f, lo), f, hi)
    ensures q == Upto(p, Rank(f) + 1)
  {
    UptoCanonical(p, Rank(f));
    assert FieldAt(Rank(f)) == f;
    GetOfBelow(before, f);
    if lo.Some? {
      AssignFresh(before, f, Between(lo, None));
      if hi.Some? {
        AssignLast(before, f, Between(lo, None), Between(lo, hi));
      }
    } else if hi.Some? {
      AssignFresh(before, f, Between(None, hi));
    }
  }

  // ---------------------------------------------------------------------------
  // Reading the filter back.

  lemma {:induction false} GetAppend(a: Query, b: Query, f: Field)
    ensures Get(a + b, f) == if Get(a, f).Some? then Get(a, f) else Get(b, f)
  {
    if a != [] {
      assert (a + b)[1..] == a[1..] + b;
      GetAppend(a[1..], b, f);
    } else {
      assert a + b == b;
    }
  }

  lemma {:induction false} GetUpto(p: Params, k: nat, f: Field)
    requires k <= FieldCount
    ensures Get(Upto(p, k), f) == if Rank(f) < k then CondFor(p, f) else None
  {
    if k > 0 {
      GetUpto(p, k - 1, f);
      GetAppend(Upto(p, k - 1), Piece(p, FieldAt(k - 1)), f);
    }
  }

  /** The filter object holds exactly the conditions the parameters ask for. */
  lemma GetQueryOf(p: Params, f: Field)
    ensures Get(QueryOf(p), f) == CondFor(p, f)
  {
    GetUpto(p, FieldCount, f);
  }

  /** Different parameter sets give different filter objects: the key space does
      not conflate two searches. */
  lemma QueryOfInjective(p1: Params, p2: Params)
    requires QueryOf(p1) == QueryOf(p2)
    ensures p1 == p2
  {
    forall f: Field
      ensures CondFor(p1, f) == CondFor(p2, f)
    {
      GetQueryOf(p1, f);
      GetQueryOf(p2, f);
    }
    assert CondFor(p1, City) == CondFor(p2, City);
    assert CondFor(p1, State) == CondFor(p2, State);
    assert CondFor(p1, Country) == CondFor(p2, Country);
    assert CondFor(p1, Price) == CondFor(p2, Price);
    assert CondFor(p1, Bedrooms) == CondFor(p2, Bedrooms);
    assert CondFor(p1, Bathrooms) == CondFor(p2, Bathrooms);
    assert CondFor(p1, Area) == CondFor(p2, Area);
    assert CondFor(p1, Type) == CondFor(p2, Type);
    assert CondFor(p1, Status) == CondFor(p2, Status);
  }

  // ---------------------------------------------------------------------------
  // The cache key.

  function Quote(s: string): string {
    "\"" + s + "\""
  }

  function CondJson(c: Cond): string {
    match c
    case Equals(s) => Quote(s)
    case EqualsNum(n) => CacheKeys.IntToString(n)
    case Between(lo, hi) =>
      "{" + (if lo.Some? then Quote("$gte") + ":" + CacheKeys.IntToString(lo.value) else "")
          + (if lo.Some? && hi.Some? then "," else "")
          + (if hi.Some? then Quote("$lte") + ":" + CacheKeys.IntToString(hi.value) else "") + "}"
  }

  function MembersJson(q: Query): string {
    if q == [] then "" else
      Quote(FieldName(q[0].field)) + ":" + CondJson(q[0].cond) + (if |q| > 1 then "," else "") + MembersJson(q[1..])
  }

  /** `JSON.stringify(query)`, keys in insertion order. */
  function Serialize(q: Query): string {
    "{" + MembersJson(q) + "}"
  }

  /** The key a search is cached under. */
  function KeyOf(p: Params): (k: string)
    ensures CacheKeys.FamilyOf(k) == CacheKeys.SearchKeys
  {
    CacheKeys.SearchKey(Serialize(QueryOf(p)))
  }

  // ---------------------------------------------------------------------------
  // Matching, as `Property.find(query)` applies the filter.

  datatype Value = Text(s: string) | Number(n: int)

  function ValueOf(prop: Property, f: Field): Value {
    match f
    case City => Text(prop.location.city)
    case State => Text(prop.location.state)
    case Country => Text(prop.location.country)
    case Price => Number(prop.price)
    case Bedrooms => Number(prop.bedrooms)
    case Bathrooms => Number(prop.bathrooms)
    case Area => Number(prop.area)
    case Type => Text(prop.propertyType)
    case Status => Text(prop.status)
  }

  predicate Holds(c: Cond, v: Value) {
    match c
    case Equals(s) => v == Text(s)
    case EqualsNum(n) => v == Number(n)
    case Between(lo, hi) => v.Number? && (lo.None? || lo.value <= v.n) && (hi.None? || v.n <= hi.value)
  }

  predicate Matches(prop: Property, q: Query) {
    forall i :: 0 <= i < |q| ==> Holds(q[i].cond, ValueOf(prop, q[i].field))
  }

  /** The search results: the stored properties that match, in natural order. */
  function Results(listing: seq<Property>, p: Params): seq<Property> {
    Collections.Filter(listing, (prop: Property) => Matches(prop, QueryOf(p)))
  }

  /** What the parameters ask of a property, read directly off the parameters. */
  predicate Satisfies(prop: Property, p: Params) {
    (p.city.None? || prop.location.city == p.city.value) &&
    (p.state.None? || prop.location.state == p.state.value) &&
    (p.country.None? || prop.location.country == p.country.value) &&
    (p.minPrice.None? || p.minPrice.value <= prop.price) &&
    (p.maxPrice.None? || prop.price <= p.maxPrice.value) &&
    (p.bedrooms.None? || prop.bedrooms == p.bedrooms.value) &&
    (p.bathrooms.None? || prop.bathrooms == p.bathrooms.value) &&
    (p.minArea.None? || p.minArea.value <= prop.area) &&
    (p.maxArea.None? || prop.area <= p.maxArea.value) &&
    (p.propertyType.None? || prop.propertyType == p.propertyType.value) &&
    (p.status.None? || prop.status == p.status.value)
  }

  predicate FieldHolds(prop: Property, p: Params, f: Field) {
    CondFor(p, f).None? || Holds(CondFor(p, f).value, ValueOf(prop, f))
  }

  lemma MatchesAppend(prop: Property, a: Query, b: Query)
    ensures Matches(prop, a + b) <==> Matches(prop, a) && Matches(prop, b)
  {
    if Matches(prop, a + b) {
      forall i | 0 <= i < |a|
        ensures Holds(a[i].cond, ValueOf(prop, a[i].field))
      {
        assert (a + b)[i] == a[i];
      }
      forall i | 0 <= i < |b|
        ensures Holds(b[i].cond, ValueOf(prop, b[i].field))
      {
        assert (a + b)[|a| + i] == b[i];
      }
    }
  }

  lemma {:induction false} MatchesUpto(prop: Property, p: Params, k: nat)
    requires k <= FieldCount
    ensures Matches(prop, Upto(p, k)) <==> forall f :: Rank(f) < k ==> FieldHolds(prop, p, f)
  {
    if k > 0 {
      MatchesUpto(prop, p, k - 1);
      var f := FieldAt(k - 1);
      MatchesAppend(prop, Upto(p, k - 1), Piece(p, f));
      if CondFor(p, f).Some? {
        assert Piece(p, f)[0] == Clause(f, CondFor(p, f).value);
      }
      assert Matches(prop, Piece(p, f)) <==> FieldHolds(prop, p, f);
    }
  }

  /** A property matches the filter object exactly when it meets every given parameter. */
  lemma MatchesIffSatisfies(prop: Property, p: Params)
    ensures Matches(prop, QueryOf(p)) <==> Satisfies(prop, p)
  {
    MatchesUpto(prop, p, FieldCount);
    if Satisfies(prop, p) {
      forall f | Rank(f) < FieldCount
        ensures FieldHolds(prop, p, f)
      {
        FieldHoldsOfSatisfies(prop, p, f);
      }
    } else if forall f :: Rank(f) < FieldCount ==> FieldHolds(prop, p, f) {
      SatisfiesOfFields(prop, p);
    }
  }

  lemma FieldHoldsOfSatisfies(prop: Property, p: Params, f: Field)
    requires Satisfies(prop, p)
    ensures FieldHolds(prop, p, f)
  {
    match f
    case City =>
    case State =>
    case Country =>
    case Price =>
    case Bedrooms =>
    case Bathrooms =>
    case Area =>
    case Type =>
    case Status =>
  }

  lemma SatisfiesOfFields(prop: Property, p: Params)
    requires forall f :: Rank(f) < FieldCount ==> FieldHolds(prop, p, f)
    ensures Satisfies(prop, p)
  {
    assert FieldHolds(prop, p, City) && FieldHolds(prop, p, State) && FieldHolds(prop, p, Country);
    assert FieldHolds(prop, p, Price) && FieldHolds(prop, p, Bedrooms) && FieldHolds(prop, p, Bathrooms);
    assert FieldHolds(prop, p, Area) && FieldHolds(prop, p, Type) && FieldHolds(prop, p, Status);
  }

  /** A stored property is among the results exactly when it meets every given parameter. */
  lemma ResultsMeaning(listing: seq<Property>, p: Params, prop: Property)
    ensures prop in Results(listing, p) <==> prop in listing && Satisfies(prop, p)
  {
    MatchesIffSatisfies(prop, p);
  }
}
