/**
 * The compiled-in table of West Java regencies and cities (rice production
 * estimates for 2024) and the lookup of a region by a free-text query.
 */
module Catalog {
  import opened Wrappers
  import opened Text

  /** One region: production in tonnes, map coordinates, baseline soil strength. */
  datatype Region = Region(id: string, name: string, production: int, lat: real, lon: real, soilBase: real)

  const Regions: seq<Region> := [
    Region("indramayu", "Indramayu", 1413200, -6.3275, 108.3275, 16.5),
    Region("karawang", "Karawang", 1098400, -6.3030, 107.3095, 17.8),
    Region("subang", "Subang", 1012300, -6.5718, 107.7604, 16.0),
    Region("cianjur", "Cianjur", 902145, -6.8206, 107.1425, 15.5),
    Region("majalengka", "Majalengka", 854321, -6.8365, 108.2267, 15.0),
    Region("garut", "Garut", 745600, -7.2274, 107.9087, 19.0),
    Region("tasikmalaya", "Tasikmalaya", 650200, -7.3274, 108.2207, 15.2),
    Region("cirebon", "Cirebon", 562103, -6.7372, 108.5507, 14.5),
    Region("sukabumi", "Sukabumi", 504567, -6.9277, 106.9300, 13.0),
    Region("bekasi", "Bekasi", 451230, -6.2383, 106.9756, 18.0),
    Region("bandung", "Bandung", 401890, -6.9147, 107.6098, 14.2),
    Region("ciamis", "Ciamis", 350100, -7.3263, 108.3537, 15.0),
    Region("kuningan", "Kuningan", 300500, -6.9765, 108.4816, 15.8),
    Region("sumedang", "Sumedang", 280400, -6.8586, 107.9266, 14.8),
    Region("purwakarta", "Purwakarta", 220100, -6.5561, 107.4421, 15.5),
    Region("bogor", "Bogor", 201255, -6.5971, 106.8060, 13.5),
    Region("bandung_barat", "Bandung Barat", 148803, -6.8433, 107.5113, 14.0),
    Region("pangandaran", "Pangandaran", 120500, -7.7056, 108.4950, 13.8),
    Region("banjar", "Kota Banjar", 35000, -7.3746, 108.5348, 14.5),
    Region("depok", "Depok", 2500, -6.4025, 106.7942, 12.0)
  ]

  /** What a stored record is compared against: its name lower-cased, not trimmed. */
  function Key(r: Region): (k: string)
    ensures |k| == |r.name| && forall i :: 0 <= i < |k| ==> !IsUpper(k[i])
  {
    Lower(r.name)
  }

  /** Lower-cased names are pairwise distinct, so at most one record can match a query. */
  predicate KeysDistinct(rs: seq<Region>) {
    forall i, j :: 0 <= i < j < |rs| ==> Key(rs[i]) != Key(rs[j])
  }

  /** `Array.prototype.find` with the key comparison: the first record whose key equals `key` (FindInFirst). */
  function FindIn(rs: seq<Region>, key: string): (r: Option<Region>)
    ensures r.Some? ==> r.value in rs && Key(r.value) == key
  {
    if rs == [] then None
    else if Key(rs[0]) == key then Some(rs[0])
    else FindIn(rs[1..], key)
  }

  /**
   * The lookup finds nothing exactly when no record has the key; otherwise it
   * finds a record with the key, and no earlier record has it.
   */
  lemma {:induction false} FindInFirst(rs: seq<Region>, key: string)
    ensures FindIn(rs, key).None? <==> forall i :: 0 <= i < |rs| ==> Key(rs[i]) != key
    ensures FindIn(rs, key).Some? ==>
      exists i :: 0 <= i < |rs| && rs[i] == FindIn(rs, key).value && Key(rs[i]) == key
                  && forall j :: 0 <= j < i ==> Key(rs[j]) != key
    decreases |rs|
  {
    if rs != [] && Key(rs[0]) != key {
      var tail := rs[1..];
      FindInFirst(tail, key);
      assert forall i :: 1 <= i < |rs| ==> rs[i] == tail[i - 1];
      if FindIn(tail, key).Some? {
        var i :| 0 <= i < |tail| && tail[i] == FindIn(tail, key).value && Key(tail[i]) == key
                 && forall j :: 0 <= j < i ==> Key(tail[j]) != key;
        assert rs[i + 1] == tail[i];
        assert forall j :: 0 <= j < i + 1 ==> Key(rs[j]) != key by {
          forall j | 0 <= j < i + 1 ensures Key(rs[j]) != key {
            if j > 0 { assert rs[j] == tail[j - 1]; }
          }
        }
      }
    }
  }

  /** The key of a query; an absent or empty query becomes the empty string. */
  function QueryKey(query: Option<string>): string {
    match query
    case None => ""
    case Some(s) => Normalize(s)
  }

  /** A query's key is empty exactly when the query is absent or all spaces. */
  lemma QueryKeyBlank(query: Option<string>)
    ensures QueryKey(query) == [] <==> query.None? || AllSpace(query.value)
  {
  }

  /** The region of table `rs` that a query selects, or `None` when nothing matches. */
  function Lookup(rs: seq<Region>, query: Option<string>): (r: Option<Region>)
    ensures r.Some? ==> r.value in rs && Key(r.value) == QueryKey(query)
  {
    FindIn(rs, QueryKey(query))
  }

  /** The region of the West Java table a query selects, or `None` when nothing matches (FindMatches). */
  function Find(query: Option<string>): (r: Option<Region>)
    ensures r.Some? ==> r.value in Regions && Key(r.value) == QueryKey(query)
  {
    Lookup(Regions, query)
  }

  /** A query finds a catalogued record with the query's key, and finds nothing only when no record has that key. */
  lemma FindMatches(query: Option<string>)
    ensures Find(query).Some? ==> Find(query).value in Regions && Key(Find(query).value) == QueryKey(query)
    ensures Find(query).None? <==> forall i :: 0 <= i < |Regions| ==> Key(Regions[i]) != QueryKey(query)
  {
    LookupMatches(Regions, query);
  }

  /** A lookup returns a record of the table with the query's key, or nothing when no record has it. */
  lemma LookupMatches(rs: seq<Region>, query: Option<string>)
    ensures Lookup(rs, query).Some? ==> Lookup(rs, query).value in rs && Key(Lookup(rs, query).value) == QueryKey(query)
    ensures Lookup(rs, query).None? <==> forall i :: 0 <= i < |rs| ==> Key(rs[i]) != QueryKey(query)
  {
    FindInFirst(rs, QueryKey(query));
  }

  /** The catalogue's invariant: twenty records with positive production and soil base. */
  lemma RecordsPositive()
    ensures |Regions| == 20
    ensures forall i :: 0 <= i < |Regions| ==> Regions[i].production > 0 && Regions[i].soilBase > 0.0
  {
  }

  /** Identifiers and display names are unique. */
  lemma IdsAndNamesUnique()
    ensures forall i, j :: 0 <= i < j < |Regions| ==> Regions[i].id != Regions[j].id
    ensures forall i, j :: 0 <= i < j < |Regions| ==> Regions[i].name != Regions[j].name
  {
    IdsTellApart();
    NamesCapitalised();
    NamesTellApart();
    forall i, j | 0 <= i < j < |Regions|
      ensures Regions[i].id != Regions[j].id && Regions[i].name != Regions[j].name
    {
      var a, b := Regions[i], Regions[j];
      if |a.id| == |b.id| && a.id[0] == b.id[0] { assert a.id[2] != b.id[2]; }
      if |a.name| == |b.name| && a.name[0] == b.name[0] { assert a.name[2] != b.name[2]; }
    }
  }

  /** Every pair of identifiers differs in length, in its first letter or in its third letter. */
  lemma IdsTellApart()
    ensures forall i, j :: 0 <= i < j < |Regions| ==>
      var a, b := Regions[i].id, Regions[j].id;
      |a| >= 3 && |b| >= 3 && (|a| != |b| || a[0] != b[0] || a[2] != b[2])
  {
  }

  /** A display name is non-empty and neither starts nor ends with a space. */
  lemma NamesTrimmed()
    ensures forall i :: 0 <= i < |Regions| ==> |Regions[i].name| >= 3 && !IsSpace(Regions[i].name[0])
                                                && !IsSpace(Regions[i].name[|Regions[i].name| - 1])
  {
    forall i | 0 <= i < |Regions|
      ensures |Regions[i].name| >= 3 && 'A' <= Regions[i].name[0] <= 'z'
              && 'A' <= Regions[i].name[|Regions[i].name| - 1] <= 'z'
    {
    }
  }

  /** Every name is capitalised: an upper-case first letter and a lower-case third letter. */
  lemma NamesCapitalised()
    ensures forall i :: 0 <= i < |Regions| ==>
      |Regions[i].name| >= 3 && IsUpper(Regions[i].name[0]) && 'a' <= Regions[i].name[2] <= 'z'
  {
  }

  /** Every pair of stored names differs in length, in its first letter or in its third letter. */
  lemma NamesTellApart()
    ensures forall i, j :: 0 <= i < j < |Regions| ==>
      var a, b := Regions[i].name, Regions[j].name;
      |a| != |b| || a[0] != b[0] || a[2] != b[2]
  {
    NamesCapitalised();
  }

  /** Capitalised names told apart by length, first or third letter stay distinct after lower-casing. */
  lemma TellApartKeysDistinct(rs: seq<Region>)
    requires forall i :: 0 <= i < |rs| ==>
      |rs[i].name| >= 3 && IsUpper(rs[i].name[0]) && 'a' <= rs[i].name[2] <= 'z'
    requires forall i, j :: 0 <= i < j < |rs| ==>
      var a, b := rs[i].name, rs[j].name;
      |a| != |b| || a[0] != b[0] || a[2] != b[2]
    ensures KeysDistinct(rs)
  {
    forall i, j | 0 <= i < j < |rs| ensures Key(rs[i]) != Key(rs[j]) {
      var a, b := rs[i].name, rs[j].name;
      assert Lower(a)[0] == LowerChar(a[0]) && Lower(a)[2] == LowerChar(a[2]);
      assert Lower(b)[0] == LowerChar(b[0]) && Lower(b)[2] == LowerChar(b[2]);
    }
  }

  /** Lower-cased names are pairwise distinct, so a query can match at most one record. */
  lemma CatalogKeysDistinct()
    ensures KeysDistinct(Regions)
  {
    NamesCapitalised();
    NamesTellApart();
    TellApartKeysDistinct(Regions);
  }

  /** With distinct keys, looking up a record's own key finds that record. */
  lemma {:induction false} FindInOwnKey(rs: seq<Region>, i: nat)
    requires KeysDistinct(rs) && i < |rs|
    ensures FindIn(rs, Key(rs[i])) == Some(rs[i])
    decreases i
  {
    if i > 0 {
      assert Key(rs[0]) != Key(rs[i]);
      assert KeysDistinct(rs[1..]) by {
        forall a, b | 0 <= a < b < |rs[1..]| ensures Key(rs[1..][a]) != Key(rs[1..][b]) {
          assert rs[1..][a] == rs[a + 1] && rs[1..][b] == rs[b + 1];
        }
      }
      assert rs[1..][i - 1] == rs[i];
      FindInOwnKey(rs[1..], i - 1);
    }
  }

  /** With distinct keys, a lookup returns a given record exactly when the key is that record's. */
  lemma FindInSelects(rs: seq<Region>, key: string, i: nat)
    requires KeysDistinct(rs) && i < |rs|
    ensures FindIn(rs, key) == Some(rs[i]) <==> key == Key(rs[i])
  {
    if key == Key(rs[i]) {
      FindInOwnKey(rs, i);
    } else {
      FindInFirst(rs, key);
    }
  }

  /** A query selects a record exactly when its key is that record's lower-cased name. */
  lemma FindSelects(query: Option<string>, i: nat)
    requires i < |Regions|
    ensures Find(query) == Some(Regions[i]) <==> QueryKey(query) == Key(Regions[i])
  {
    CatalogKeysDistinct();
    FindInSelects(Regions, QueryKey(query), i);
  }

  /** For a name without surrounding spaces, the query key of the name is the record's key. */
  lemma NameIsOwnQuery(r: Region)
    requires |r.name| > 0 && !IsSpace(r.name[0]) && !IsSpace(r.name[|r.name| - 1])
    ensures Normalize(r.name) == Key(r)
  {
    var l := Lower(r.name);
    assert l[0] == LowerChar(r.name[0]) && l[|l| - 1] == LowerChar(r.name[|r.name| - 1]);
    NormalizeFixed(l);
  }

  /** Typing a region's display name exactly as stored selects that region. */
  lemma FindByName(i: nat)
    requires i < |Regions|
    ensures Find(Some(Regions[i].name)) == Some(Regions[i])
  {
    NamesTrimmed();
    NameIsOwnQuery(Regions[i]);
    FindSelects(Some(Regions[i].name), i);
  }

  /** An absent, empty or all-space query selects nothing: no stored name is empty. */
  lemma BlankQueryUnmatched(query: Option<string>)
    requires query.None? || AllSpace(query.value)
    ensures Find(query) == None
  {
    NamesTrimmed();
    assert QueryKey(query) == [];
    FindInEmptyKey(Regions);
  }

  /** The empty key matches no record with a non-empty name. */
  lemma FindInEmptyKey(rs: seq<Region>)
    requires forall i :: 0 <= i < |rs| ==> |rs[i].name| > 0
    ensures FindIn(rs, []) == None
  {
    forall i | 0 <= i < |rs| ensures Key(rs[i]) != [] {
      assert |Key(rs[i])| == |rs[i].name|;
    }
    FindInFirst(rs, []);
  }

  /** A key whose length and first two letters no stored key shares is matched by nothing. */
  lemma FindInMissing(rs: seq<Region>, key: string)
    requires |key| >= 2
    requires forall i :: 0 <= i < |rs| ==> |rs[i].name| != |key| || LowerChar(rs[i].name[0]) != key[0]
                                           || LowerChar(rs[i].name[1]) != key[1]
    ensures FindIn(rs, key) == None
  {
    forall i | 0 <= i < |rs| ensures Key(rs[i]) != key {
      var n := rs[i].name;
      if |n| == |key| { assert Lower(n)[0] == LowerChar(n[0]) && Lower(n)[1] == LowerChar(n[1]); }
    }
    FindInFirst(rs, key);
  }

  /** No stored key is six letters long and starts with "ba". */
  lemma NoKeyLikeBanjar()
    ensures FindIn(Regions, "banjar") == None
  {
    NamesTrimmed();
    assert forall i :: 0 <= i < |Regions| ==>
      |Regions[i].name| != 6 || LowerChar(Regions[i].name[0]) != 'b' || LowerChar(Regions[i].name[1]) != 'a';
    FindInMissing(Regions, "banjar");
  }

  /** The identifier is not a lookup key: the record with id "banjar" is named "Kota Banjar". */
  lemma IdIsNotName()
    ensures Find(Some("banjar")) == None
  {
    NormalizeFixed("banjar");
    NoKeyLikeBanjar();
  }

  /** No stored key is seven letters long and starts with "no". */
  lemma NoKeyLikeNowhere()
    ensures FindIn(Regions, "nowhere") == None
  {
    NamesTrimmed();
    assert forall i :: 0 <= i < |Regions| ==>
      |Regions[i].name| != 7 || LowerChar(Regions[i].name[0]) != 'n' || LowerChar(Regions[i].name[1]) != 'o';
    FindInMissing(Regions, "nowhere");
  }

  lemma NowhereCase()
    ensures Normalize("Nowhere") == Normalize("nowhere")
  {
    NormalizeIgnoresCase("Nowhere", "nowhere");
  }

  lemma NowhereKey()
    ensures Normalize("nowhere") == "nowhere"
  {
    NormalizeFixed("nowhere");
  }

  /** A name outside the table selects nothing. */
  lemma UnknownNameUnmatched()
    ensures Find(Some("Nowhere")) == None
  {
    NowhereCase();
    NowhereKey();
    NoKeyLikeNowhere();
  }
}
