/** The cache keys the three controllers derive from their inputs, the decimal
    rendering of the integers embedded in them, and a classification of keys by
    prefix that shows which handler can ever write or delete a given key. */
module CacheKeys {
  import opened Models

  // ---------------------------------------------------------------------------
  // Decimal rendering of integers, as a template literal `${n}` prints them.

  predicate IsDigit(c: char) {
    '0' <= c <= '9'
  }

  predicate AllDigits(s: string) {
    forall i :: 0 <= i < |s| ==> IsDigit(s[i])
  }

  function DigitChar(d: nat): (c: char)
    requires d < 10
    ensures IsDigit(c) && c as int - '0' as int == d
  {
    ('0' as int + d) as char
  }

  function NatToString(n: nat): (s: string)
    ensures |s| > 0 && AllDigits(s)
  {
    if n < 10 then [DigitChar(n)] else NatToString(n / 10) + [DigitChar(n % 10)]
  }

  /** Reads a non-empty run of digits back as a number. */
  function ParseNat(s: string): nat
    requires AllDigits(s)
  {
    if s == [] then 0 else 10 * ParseNat(s[..|s| - 1]) + (s[|s| - 1] as int - '0' as int)
  }

  lemma {:induction false} ParseNatToString(n: nat)
    ensures ParseNat(NatToString(n)) == n
  {
    if n >= 10 {
      var s := NatToString(n);
      assert s[..|s| - 1] == NatToString(n / 10);
      ParseNatToString(n / 10);
    }
  }

  function IntToString(i: int): (s: string)
    ensures |s| > 0 && ':' !in s
  {
    if i < 0 then "-" + NatToString(-i) else NatToString(i)
  }

  function ParseInt(s: string): int
    requires |s| > 0
    requires s[0] == '-' ==> AllDigits(s[1..])
    requires s[0] != '-' ==> AllDigits(s)
  {
    if s[0] == '-' then 0 - ParseNat(s[1..]) else ParseNat(s)
  }

  /** Rendering then reading back gives the number: distinct numbers render differently. */
  lemma ParseIntToString(i: int)
    ensures var s := IntToString(i);
            |s| > 0 && (s[0] == '-' ==> AllDigits(s[1..])) && (s[0] != '-' ==> AllDigits(s)) &&
            ParseInt(s) == i
  {
    if i < 0 {
      assert ("-" + NatToString(-i))[1..] == NatToString(-i);
      ParseNatToString(-i);
    } else {
      ParseNatToString(i);
    }
  }

  lemma IntToStringInjective(a: int, b: int)
    requires IntToString(a) == IntToString(b)
    ensures a == b
  {
    ParseIntToString(a);
    ParseIntToString(b);
  }

  // ---------------------------------------------------------------------------
  // Key families, told apart by prefix.

  const PropertyPrefix := "property:"
  const PagePrefix := "properties:page:"
  const SearchPrefix := "search:"
  const FavoritesPrefix := "favorites:"
  const RecommendationsPrefix := "recommendations:"

  /** The key that property writes delete: nothing ever stores an entry under it. */
  const ListKey := "properties"

  predicate HasPrefix(k: string, prefix: string) {
    |prefix| <= |k| && k[..|prefix|] == prefix
  }

  datatype Family = PropertyKeys | PageKeys | SearchKeys | FavoritesKeys | RecommendationsKeys | Unclassified

  /** The handler family a key belongs to, read off its prefix. */
  function FamilyOf(k: string): Family {
    if HasPrefix(k, PropertyPrefix) then PropertyKeys
    else if HasPrefix(k, PagePrefix) then PageKeys
    else if HasPrefix(k, SearchPrefix) then SearchKeys
    else if HasPrefix(k, FavoritesPrefix) then FavoritesKeys
    else if HasPrefix(k, RecommendationsPrefix) then RecommendationsKeys
    else Unclassified
  }

  /** `property:<id>`: the id can be read back from the key. */
  function PropertyKey(id: Id): (k: string)
    ensures FamilyOf(k) == PropertyKeys
    ensures |k| == |PropertyPrefix| + |id| && k[|PropertyPrefix|..] == id
  {
    assert (PropertyPrefix + id)[..|PropertyPrefix|] == PropertyPrefix;
    PropertyPrefix + id
  }

  /** `properties:page:<page>:limit:<limit>`. */
  function PageKey(page: int, limit: int): (k: string)
    ensures FamilyOf(k) == PageKeys
  {
    var k := PagePrefix + IntToString(page) + ":limit:" + IntToString(limit);
    assert k[..|PagePrefix|] == PagePrefix;
    assert k[7] == 'i';
    k
  }

  /** `search:<serialised filter object>`. */
  function SearchKey(filter: string): (k: string)
    ensures FamilyOf(k) == SearchKeys
    ensures |k| == |SearchPrefix| + |filter| && k[|SearchPrefix|..] == filter
  {
    var k := SearchPrefix + filter;
    assert k[..|SearchPrefix|] == SearchPrefix;
    assert k[0] == 's';
    k
  }

  /** `favorites:<userId>`. */
  function FavoritesKey(userId: Id): (k: string)
    ensures FamilyOf(k) == FavoritesKeys
    ensures |k| == |FavoritesPrefix| + |userId| && k[|FavoritesPrefix|..] == userId
  {
    var k := FavoritesPrefix + userId;
    assert k[..|FavoritesPrefix|] == FavoritesPrefix;
    assert k[0] == 'f';
    k
  }

  /** `recommendations:<userId>`. */
  function RecommendationsKey(userId: Id): (k: string)
    ensures FamilyOf(k) == RecommendationsKeys
    ensures |k| == |RecommendationsPrefix| + |userId| && k[|RecommendationsPrefix|..] == userId
  {
    var k := RecommendationsPrefix + userId;
    assert k[..|RecommendationsPrefix|] == RecommendationsPrefix;
    assert k[0] == 'r';
    k
  }

  /** A key of the `property:` family is the property key of its own suffix. */
  lemma PropertyKeyOfSuffix(k: string)
    requires FamilyOf(k) == PropertyKeys
    ensures |PropertyPrefix| <= |k| && k == PropertyKey(k[|PropertyPrefix|..])
  {
    assert k == k[..|PropertyPrefix|] + k[|PropertyPrefix|..];
  }

  /** A key of the `favorites:` family is the favourites key of its own suffix. */
  lemma FavoritesKeyOfSuffix(k: string)
    requires FamilyOf(k) == FavoritesKeys
    ensures |FavoritesPrefix| <= |k| && k == FavoritesKey(k[|FavoritesPrefix|..])
  {
    assert k == k[..|FavoritesPrefix|] + k[|FavoritesPrefix|..];
  }

  /** A key of the `recommendations:` family is the recommendations key of its own suffix. */
  lemma RecommendationsKeyOfSuffix(k: string)
    requires FamilyOf(k) == RecommendationsKeys
    ensures |RecommendationsPrefix| <= |k| && k == RecommendationsKey(k[|RecommendationsPrefix|..])
  {
    assert k == k[..|RecommendationsPrefix|] + k[|RecommendationsPrefix|..];
  }

  /** The keys a property write deletes, `property:<id>` and `properties`, are never a
      page or search key: those entries outlive every write. */
  lemma PropertyWriteSparesListings(id: Id, k: string)
    requires FamilyOf(k) == PageKeys || FamilyOf(k) == SearchKeys
    ensures k != PropertyKey(id) && k != ListKey
  {
    ListKeyUnclassified();
  }

  /** The literal key `properties` belongs to no family: it is not the key of any
      page, search, property, favourites or recommendations entry. */
  lemma ListKeyUnclassified()
    ensures FamilyOf(ListKey) == Unclassified
  {
    assert ListKey[7] == 'i';
    assert ListKey[0] == 'p';
    assert |ListKey| < |PagePrefix|;
  }

  /** Two pairs (page, limit) share a page key only if they are equal. */
  lemma PageKeyInjective(p1: int, l1: int, p2: int, l2: int)
    requires PageKey(p1, l1) == PageKey(p2, l2)
    ensures p1 == p2 && l1 == l2
  {
    var a, b := IntToString(p1), IntToString(l1);
    var c, d := IntToString(p2), IntToString(l2);
    var sep := ":limit:";
    assert PageKey(p1, l1)[|PagePrefix|..] == a + sep + b;
    assert PageKey(p2, l2)[|PagePrefix|..] == c + sep + d;
    SplitAtSeparator(a, b, c, d, sep);
    IntToStringInjective(p1, p2);
    IntToStringInjective(l1, l2);
  }

  /** A separator that starts with ':' splits a string uniquely when the left parts hold no ':'. */
  lemma SplitAtSeparator(a: string, b: string, c: string, d: string, sep: string)
    requires |sep| > 0 && sep[0] == ':'
    requires ':' !in a && ':' !in c
    requires a + sep + b == c + sep + d
    ensures a == c && b == d
  {
    var s := a + sep + b;
    FirstColon(a, sep, b);
    FirstColon(c, sep, d);
    assert |a| == |c|;
    assert a == s[..|a|] == c;
    assert b == s[|a| + |sep|..] == d;
  }

  /** In `a + sep + b`, the first ':' is where `sep` starts. */
  lemma FirstColon(a: string, sep: string, b: string)
    requires |sep| > 0 && sep[0] == ':' && ':' !in a
    ensures (a + sep + b)[|a|] == ':'
    ensures forall i :: 0 <= i < |a| ==> (a + sep + b)[i] != ':'
  {
    forall i | 0 <= i < |a|
      ensures (a + sep + b)[i] != ':'
    {
      assert (a + sep + b)[i] == a[i];
    }
  }
}
