/** The property search tool of the real-estate example
    (examples/real_estate_management/tools.py): a fixed catalogue of three listings, filtered
    by a case-insensitive substring match on the location. */
module RealEstate {
  import opened Common

  /** One listing. `kind` is the dict's "type" entry. */
  datatype Property = Property(id: string, kind: string, location: string, price: int,
                               sellerAgent: string, description: string)

  const Prop1: Property := Property("prop1", "1BHK", "Koramangala", 25000, "seller_agent_1", "Spacious 1BHK with modern amenities")
  const Prop2: Property := Property("prop2", "1BHK", "Indiranagar", 28000, "seller_agent_2", "Cozy 1BHK near metro station")
  const Prop3: Property := Property("prop3", "2BHK", "Koramangala", 35000, "seller_agent_1", "Premium 2BHK with parking")

  /** The dummy database, in its listed order. */
  const Catalogue: seq<Property> := [Prop1, Prop2, Prop3]

  /** The listing matches the query: the lower-cased query occurs in the lower-cased location. */
  predicate LocationMatches(query: string, p: Property) {
    Contains(Lower(p.location), Lower(query))
  }

  /** The list comprehension: the matching listings, in their original order. */
  function FilterByLocation(properties: seq<Property>, query: string): (r: seq<Property>)
    ensures |r| <= |properties|
    ensures forall p :: p in r <==> p in properties && LocationMatches(query, p)
    decreases |properties|
  {
    if properties == [] then []
    else
      (if LocationMatches(query, properties[0]) then [properties[0]] else []) + FilterByLocation(properties[1..], query)
  }

  /** Filtering keeps the relative order: filtering a concatenation filters each part. */
  lemma {:induction false} FilterByLocationAppend(a: seq<Property>, b: seq<Property>, query: string)
    ensures FilterByLocation(a + b, query) == FilterByLocation(a, query) + FilterByLocation(b, query)
    decreases |a|
  {
    if a == [] {
      assert a + b == b;
    } else {
      assert (a + b)[0] == a[0] && (a + b)[1..] == a[1..] + b;
      FilterByLocationAppend(a[1..], b, query);
    }
  }

  /** `search_properties`: the whole catalogue without a "location" preference, otherwise the
      listings whose location contains it, ignoring case. Other preferences are not used. */
  function SearchProperties(preferences: map<string, string>): (r: seq<Property>)
    ensures "location" !in preferences ==> r == Catalogue
    ensures "location" in preferences ==>
      forall p :: p in r <==> p in Catalogue && LocationMatches(preferences["location"], p)
  {
    if "location" in preferences then FilterByLocation(Catalogue, preferences["location"]) else Catalogue
  }

  /** Only the "location" entry is read. */
  lemma OtherPreferencesIgnored(preferences: map<string, string>, key: string, value: string)
    requires key != "location"
    ensures SearchProperties(preferences[key := value]) == SearchProperties(preferences)
  {
  }

  /** An empty location occurs in every location, so it keeps the whole catalogue. */
  lemma EmptyLocationKeepsAll(preferences: map<string, string>)
    requires "location" in preferences && preferences["location"] == ""
    ensures SearchProperties(preferences) == Catalogue
  {
    forall p | p in Catalogue ensures LocationMatches("", p) {
      assert OccursAt(Lower(p.location), "", 0);
    }
    assert Lower("") == "";
    FilterAllMatching(Catalogue, "");
  }

  /** When every listing matches, filtering changes nothing. */
  lemma {:induction false} FilterAllMatching(properties: seq<Property>, query: string)
    requires forall p :: p in properties ==> LocationMatches(query, p)
    ensures FilterByLocation(properties, query) == properties
    decreases |properties|
  {
    if properties != [] {
      assert properties[0] in properties;
      FilterAllMatching(properties[1..], query);
      assert properties == [properties[0]] + properties[1..];
    }
  }

  /** "KORAMANGALA" finds the two Koramangala listings, in catalogue order. */
  lemma SearchKoramangala()
    ensures SearchProperties(map["location" := "KORAMANGALA"]) == [Prop1, Prop3]
  {
    KoramangalaMatches();
    IndiranagarDoesNotMatch();
    assert Catalogue[1..] == [Prop2, Prop3] && Catalogue[1..][1..] == [Prop3];
    assert FilterByLocation([Prop3], "KORAMANGALA") == [Prop3] + FilterByLocation([], "KORAMANGALA");
    assert FilterByLocation([Prop2, Prop3], "KORAMANGALA") == FilterByLocation([Prop3], "KORAMANGALA");
  }

  /** The upper-cased query matches both Koramangala listings. */
  lemma KoramangalaMatches()
    ensures LocationMatches("KORAMANGALA", Prop1) && LocationMatches("KORAMANGALA", Prop3)
  {
    var q := Lower("KORAMANGALA");
    assert q == "koramangala";
    assert Lower("Koramangala") == "koramangala";
    assert OccursAt("koramangala", q, 0);
  }

  /** The upper-cased query does not match the Indiranagar listing. */
  lemma IndiranagarDoesNotMatch()
    ensures !LocationMatches("KORAMANGALA", Prop2)
  {
    var q := Lower("KORAMANGALA");
    assert q == "koramangala";
    assert Lower("Indiranagar") == "indiranagar";
    assert "indiranagar"[0..11][0] != q[0];
    assert IndexOf("indiranagar", q) == None by {
      assert IndexOf("indiranagar"[1..], q) == None;
    }
  }

  /** A query longer than every location finds nothing. */
  lemma {:induction false} LongQueryFindsNothing(query: string)
    requires |query| > 11
    ensures SearchProperties(map["location" := query]) == []
  {
    assert |Lower(Prop1.location)| == 11 && |Lower(Prop2.location)| == 11 && |Lower(Prop3.location)| == 11;
    assert !LocationMatches(query, Prop1) && !LocationMatches(query, Prop2) && !LocationMatches(query, Prop3);
    assert Catalogue[1..] == [Prop2, Prop3] && Catalogue[1..][1..] == [Prop3] && Catalogue[1..][1..][1..] == [];
    assert FilterByLocation([Prop3], query) == FilterByLocation([], query) == [];
    assert FilterByLocation([Prop2, Prop3], query) == FilterByLocation([Prop3], query);
    assert FilterByLocation(Catalogue, query) == FilterByLocation([Prop2, Prop3], query);
  }
}
