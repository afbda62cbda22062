/** The in-memory registry the library ships for tests
    (mockSchemaRegistryClient.go): an id counter, subject -> version -> schema,
    and id -> schema, updated in place by its methods. */
module Mock {
  import opened Common
  import opened Registry

  predicate Ascending(xs: seq<int>)
  {
    forall i, j :: 0 <= i < j < |xs| ==> xs[i] <= xs[j]
  }

  /** Some element of a non-empty set: the next key of a Go `range` over a map,
      whose order is unspecified. */
  method NextKey<K>(keys: set<K>) returns (k: K)
    requires keys != {}
    ensures k in keys
  {
    k :| k in keys;
  }

  ghost function AnyOf<K>(keys: set<K>): (k: K)
    requires keys != {}
    ensures k in keys
  {
    var k :| k in keys; k
  }

  /** The largest element of a non-empty set. */
  ghost function MaxOf(s: set<int>): (m: int)
    requires s != {}
    ensures m in s
    ensures forall x :: x in s ==> x <= m
    decreases |s|
  {
    var x := AnyOf(s);
    if s == {x} then x
    else
      var rest := MaxOf(s - {x});
      assert forall y :: y in s ==> y == x || y in s - {x};
      if x <= rest then rest else x
  }

  /** The versions a subject holds; an unknown subject holds none. */
  function VersionsOf(cache: map<string, map<int, Schema>>, subject: string): map<int, Schema>
  {
    if subject in cache then cache[subject] else map[]
  }

  /** The version `generateVersion` picks when none is given: one past the largest
      existing version, or 1 for a subject without versions. */
  ghost function NextVersion(versions: map<int, Schema>): (v: int)
    ensures forall k :: k in versions ==> k < v
    ensures versions == map[] ==> v == 1
  {
    if versions == map[] then 1 else MaxOf(versions.Keys) + 1
  }

  /** The version a registration lands on: the given one when it is not negative,
      the next free one otherwise. */
  ghost function AssignedVersion(cache: map<string, map<int, Schema>>, subject: string, givenVersion: int): int
  {
    if givenVersion >= 0 then givenVersion else NextVersion(VersionsOf(cache, subject))
  }

  /** The versions a registration keeps beside the new one: none when a version is
      given (the subject starts over), all of them otherwise. */
  function RetainedVersions(cache: map<string, map<int, Schema>>, subject: string, givenVersion: int): map<int, Schema>
  {
    if givenVersion >= 0 then map[] else VersionsOf(cache, subject)
  }

  /** Some version of `subject` already holds exactly this text. */
  ghost predicate AlreadyRegistered(cache: map<string, map<int, Schema>>, subject: string, text: string)
  {
    exists v :: v in VersionsOf(cache, subject) && VersionsOf(cache, subject)[v].schema == text
  }

  /** A stored schema carries one of the three known types, and an Avro or JSON text
      has been normalised. */
  predicate NormalizedForType(s: Schema)
  {
    s.schemaType.Some? &&
    (s.schemaType.value == Avro || s.schemaType.value == Json || s.schemaType.value == Protobuf) &&
    (s.schemaType.value != Protobuf ==> NoNewline(s.schema))
  }

  /** A version map whose entries sit under their own version and are normalised. */
  ghost predicate VersionsConsistent(versions: map<int, Schema>)
  {
    forall version :: version in versions ==>
      versions[version].version == version && NormalizedForType(versions[version])
  }

  ghost predicate Consistent(cache: map<string, map<int, Schema>>, ids: map<int, Schema>, counter: int)
  {
    (forall subject :: subject in cache ==> VersionsConsistent(cache[subject])) &&
    (forall id :: id in ids ==> ids[id].id == id && id <= counter && NormalizedForType(ids[id]))
  }

  /** Registering a normalised schema under its own version and an id not above the
      counter keeps the maps consistent. */
  lemma RegisterConsistent(cache: map<string, map<int, Schema>>, ids: map<int, Schema>, counter: int,
                           subject: string, retained: map<int, Schema>, s: Schema)
    requires Consistent(cache, ids, counter)
    requires VersionsConsistent(retained)
    requires NormalizedForType(s) && s.id <= counter
    ensures Consistent(cache[subject := retained[s.version := s]], ids[s.id := s], counter)
  {
    assert VersionsConsistent(retained[s.version := s]);
  }

  /** `sort.Ints`: an ascending permutation, by insertion. */
  method SortInts(xs: seq<int>) returns (ys: seq<int>)
    ensures Ascending(ys)
    ensures multiset(ys) == multiset(xs)
  {
    ys := [];
    for i := 0 to |xs|
      invariant Ascending(ys)
      invariant multiset(ys) == multiset(xs[..i])
    {
      ys := InsertSorted(ys, xs[i]);
      assert xs[..i + 1] == xs[..i] + [xs[i]];
    }
    assert xs[..|xs|] == xs;
  }

  method InsertSorted(ys: seq<int>, x: int) returns (r: seq<int>)
    requires Ascending(ys)
    ensures Ascending(r)
    ensures multiset(r) == multiset(ys) + multiset{x}
  {
    var k := 0;
    while k < |ys| && ys[k] < x
      invariant 0 <= k <= |ys|
      invariant forall i :: 0 <= i < k ==> ys[i] < x
    {
      k := k + 1;
    }
    r := ys[..k] + [x] + ys[k..];
    assert ys == ys[..k] + ys[k..];
  }

  class MockSchemaRegistryClient {
    /** Only used to build the URLs of the errors it returns. */
    const schemaRegistryURL: string
    var schemaCache: map<string, map<int, Schema>>
    var idCache: map<int, Schema>
    var idCounter: int

    /** Every stored schema sits under its own version and its own id, every id in
        use is at most the counter (so `CreateSchema` never reuses one), and every
        stored text is normalised for its type. */
    ghost predicate Valid()
      reads this
    {
      Consistent(schemaCache, idCache, idCounter)
    }

    function SubjectVersionsUrl(subject: string): string
    {
      schemaRegistryURL + "/subjects/" + subject + "/versions"
    }

    function SchemaByIdUrl(id: int): string
    {
      schemaRegistryURL + "/schemas/ids/" + Itoa(id)
    }

    function SubjectVersionUrl(subject: string, version: int): string
    {
      schemaRegistryURL + "/subjects/" + subject + "/versions/" + Itoa(version)
    }

    /** What `SetSchema(id, subject, schema, schemaType, version)` does to the two
        maps, given their contents before (`cache`, `ids`) and after (`cache'`,
        `ids'`), and what it returns. */
    ghost predicate SetsSchema(
      cache: map<string, map<int, Schema>>, ids: map<int, Schema>,
      cache': map<string, map<int, Schema>>, ids': map<int, Schema>,
      id: int, subject: string, schema: string, schemaType: SchemaType, version: int,
      r: Outcome<Schema>)
    {
      var text := NormalizedSchema(schemaType, schema);
      if text.Err? then
        r == Err(InvalidSchemaType) && cache' == cache && ids' == ids
      else if AlreadyRegistered(cache, subject, text.value) then
        r == Err(UrlError("POST", SubjectVersionsUrl(subject), SchemaAlreadyRegistered)) &&
        cache' == cache && ids' == ids
      else
        var s := Schema(id, text.value, Some(schemaType), AssignedVersion(cache, subject, version), []);
        r == Ok(s) &&
        cache' == cache[subject := RetainedVersions(cache, subject, version)[s.version := s]] &&
        ids' == ids[id := s]
    }

    /** `CreateMockSchemaRegistryClient(mockURL)`. */
    constructor(mockURL: string)
      ensures schemaRegistryURL == mockURL
      ensures schemaCache == map[] && idCache == map[] && idCounter == 0
      ensures Valid()
    {
      schemaRegistryURL := mockURL;
      schemaCache := map[];
      idCache := map[];
      idCounter := 0;
    }

    /** `CreateSchema`: takes the next id and registers under the next version. */
    method CreateSchema(subject: string, schema: string, schemaType: SchemaType) returns (r: Outcome<Schema>)
      requires Valid()
      modifies this
      ensures Valid()
      ensures idCounter == old(idCounter) + 1
      ensures SetsSchema(old(schemaCache), old(idCache), schemaCache, idCache,
                         idCounter, subject, schema, schemaType, -1, r)
      ensures r.Ok? ==> r.value.id !in old(idCache)
    {
      idCounter := idCounter + 1;
      r := SetSchema(idCounter, subject, schema, schemaType, -1);
    }

    /** `SetSchema`: registers `schema` under `id`, at `version` or (when it is
        negative) at the next version, unless its normalised text is already a
        version of the subject. */
    method SetSchema(id: int, subject: string, schema: string, schemaType: SchemaType, version: int)
      returns (r: Outcome<Schema>)
      requires Valid()
      modifies this
      ensures Valid()
      ensures idCounter == if id > old(idCounter) then id else old(idCounter)
      ensures SetsSchema(old(schemaCache), old(idCache), schemaCache, idCache,
                         id, subject, schema, schemaType, version, r)
    {
      if id > idCounter {
        idCounter := id;
      }
      var text := NormalizedSchema(schemaType, schema);
      if text.Err? {
        return Err(InvalidSchemaType);
      }
      if subject !in schemaCache {
        var s := GenerateVersion(id, subject, text.value, schemaType, version);
        return Ok(s);
      }
      var existing := schemaCache[subject];
      var remaining := existing.Keys;
      while remaining != {}
        invariant schemaCache == old(schemaCache) && idCache == old(idCache)
        invariant idCounter == if id > old(idCounter) then id else old(idCounter)
        invariant remaining <= existing.Keys
        invariant forall v :: v in existing && v !in remaining ==> existing[v].schema != text.value
        decreases |remaining|
      {
        var v := NextKey(remaining);
        if existing[v].schema == text.value {
          assert VersionsOf(old(schemaCache), subject)[v].schema == text.value;
          return Err(UrlError("POST", SubjectVersionsUrl(subject), SchemaAlreadyRegistered));
        }
        remaining := remaining - {v};
      }
      var s := GenerateVersion(id, subject, text.value, schemaType, version);
      r := Ok(s);
    }

    /** `generateVersion`: stores the schema under its version and its id, without
        any duplicate check. */
    method GenerateVersion(id: int, subject: string, schema: string, schemaType: SchemaType, givenVersion: int)
      returns (s: Schema)
      requires Valid()
      requires id <= idCounter
      requires NormalizedForType(Schema(id, schema, Some(schemaType), 0, []))
      modifies this
      ensures Valid()
      ensures s == Schema(id, schema, Some(schemaType), AssignedVersion(old(schemaCache), subject, givenVersion), [])
      ensures schemaCache == old(schemaCache)[subject := RetainedVersions(old(schemaCache), subject, givenVersion)[s.version := s]]
      ensures idCache == old(idCache)[id := s]
      ensures idCounter == old(idCounter)
    {
      var versions := AllVersions(subject);
      var schemaVersionMap: map<int, Schema> := map[];
      var currentVersion := 1;
      if givenVersion >= 0 {
        currentVersion := givenVersion;
      } else if |versions| > 0 {
        LastIsMax(versions, VersionsOf(schemaCache, subject));
        schemaVersionMap := schemaCache[subject];
        currentVersion := versions[|versions| - 1] + 1;
      } else {
        NoVersions(versions, VersionsOf(schemaCache, subject));
      }
      s := Schema(id, schema, Some(schemaType), currentVersion, []);
      RegisterConsistent(schemaCache, idCache, idCounter, subject, schemaVersionMap, s);
      schemaVersionMap := schemaVersionMap[currentVersion := s];
      schemaCache := schemaCache[subject := schemaVersionMap];
      idCache := idCache[s.id := s];
    }

    /** `allVersions`: the subject's versions in ascending order, none for an unknown
        subject. */
    method AllVersions(subject: string) returns (versions: seq<int>)
      ensures Ascending(versions)
      ensures multiset(versions) == multiset(VersionsOf(schemaCache, subject).Keys)
    {
      versions := [];
      if subject in schemaCache {
        var keys := schemaCache[subject].Keys;
        var remaining := keys;
        while remaining != {}
          invariant remaining <= keys
          invariant multiset(versions) + multiset(remaining) == multiset(keys)
          decreases |remaining|
        {
          var v := NextKey(remaining);
          assert remaining == (remaining - {v}) + {v};
          versions := versions + [v];
          remaining := remaining - {v};
        }
      }
      versions := SortInts(versions);
    }

    /** `GetSchemaVersions`: `allVersions`, with an error that is always nil. */
    method GetSchemaVersions(subject: string) returns (versions: seq<int>)
      ensures Ascending(versions)
      ensures multiset(versions) == multiset(VersionsOf(schemaCache, subject).Keys)
    {
      versions := AllVersions(subject);
    }

    /** `GetSchema`: the schema registered under `schemaID`. */
    method GetSchema(schemaID: int) returns (r: Outcome<Schema>)
      ensures schemaID in idCache ==> r == Ok(idCache[schemaID])
      ensures schemaID !in idCache ==> r == Err(UrlError("GET", SchemaByIdUrl(schemaID), SchemaNotFound))
    {
      if schemaID !in idCache {
        return Err(UrlError("GET", SchemaByIdUrl(schemaID), SchemaNotFound));
      }
      r := Ok(idCache[schemaID]);
    }

    /** `GetSchemaByVersion`: the schema of `subject` at `version`, by a scan of the
        subject's versions. */
    method GetSchemaByVersion(subject: string, version: int) returns (r: Outcome<Schema>)
      ensures subject !in schemaCache ==> r == Err(UrlError("GET", SubjectVersionUrl(subject, version), SubjectNotFound))
      ensures subject in schemaCache && version in schemaCache[subject] ==> r == Ok(schemaCache[subject][version])
      ensures subject in schemaCache && version !in schemaCache[subject] ==>
                r == Err(UrlError("GET", SubjectVersionUrl(subject, version), SchemaNotFound))
    {
      if subject !in schemaCache {
        return Err(UrlError("GET", SubjectVersionUrl(subject, version), SubjectNotFound));
      }
      var schemaVersionMap := schemaCache[subject];
      var found: Option<Schema> := None;
      var remaining := schemaVersionMap.Keys;
      while remaining != {}
        invariant remaining <= schemaVersionMap.Keys
        invariant found == if version in schemaVersionMap && version !in remaining then Some(schemaVersionMap[version]) else None
        decreases |remaining|
      {
        var v := NextKey(remaining);
        if v == version {
          found := Some(schemaVersionMap[v]);
        }
        remaining := remaining - {v};
      }
      if found.None? {
        return Err(UrlError("GET", SubjectVersionUrl(subject, version), SchemaNotFound));
      }
      r := Ok(found.value);
    }

    /** `GetLatestSchema`: the schema stored under the subject's largest version. */
    method GetLatestSchema(subject: string) returns (r: Outcome<Schema>)
      ensures VersionsOf(schemaCache, subject) == map[] ==> r == Err(SchemaNotFound)
      ensures VersionsOf(schemaCache, subject) != map[] ==>
                r == Ok(schemaCache[subject][MaxOf(schemaCache[subject].Keys)])
    {
      var versions := GetSchemaVersions(subject);
      if |versions| == 0 {
        NoVersions(versions, VersionsOf(schemaCache, subject));
        return Err(SchemaNotFound);
      }
      var latestVersion := versions[|versions| - 1];
      LastIsMax(versions, VersionsOf(schemaCache, subject));
      r := GetSchemaByVersion(subject, latestVersion);
    }

    /** `GetSubjects`: every subject, in map order. */
    method GetSubjects() returns (allSubjects: seq<string>)
      ensures multiset(allSubjects) == multiset(schemaCache.Keys)
    {
      allSubjects := [];
      var remaining := schemaCache.Keys;
      while remaining != {}
        invariant remaining <= schemaCache.Keys
        invariant multiset(allSubjects) + multiset(remaining) == multiset(schemaCache.Keys)
        decreases |remaining|
      {
        var subject := NextKey(remaining);
        assert remaining == (remaining - {subject}) + {subject};
        allSubjects := allSubjects + [subject];
        remaining := remaining - {subject};
      }
    }

    /** `DeleteSubject`: forgets the subject's versions; the ids stay registered. */
    method DeleteSubject(subject: string)
      requires Valid()
      modifies this
      ensures Valid()
      ensures schemaCache == old(schemaCache) - {subject}
      ensures idCache == old(idCache) && idCounter == old(idCounter)
    {
      schemaCache := schemaCache - {subject};
    }

    /** `DeleteSubjectByVersion`: forgets one version of the subject. */
    method DeleteSubjectByVersion(subject: string, version: int) returns (err: Option<Error>)
      requires Valid()
      modifies this
      ensures Valid()
      ensures idCache == old(idCache) && idCounter == old(idCounter)
      ensures subject !in old(schemaCache) ==>
                err == Some(UrlError("DELETE", SubjectVersionUrl(subject, version), SubjectNotFound)) &&
                schemaCache == old(schemaCache)
      ensures subject in old(schemaCache) && version in old(schemaCache)[subject] ==>
                err == None &&
                schemaCache == old(schemaCache)[subject := old(schemaCache)[subject] - {version}]
      ensures subject in old(schemaCache) && version !in old(schemaCache)[subject] ==>
                err == Some(UrlError("GET", SubjectVersionUrl(subject, version), SchemaNotFound)) &&
                schemaCache == old(schemaCache)
    {
      if subject !in schemaCache {
        return Some(UrlError("DELETE", SubjectVersionUrl(subject, version), SubjectNotFound));
      }
      var remaining := schemaCache[subject].Keys;
      while remaining != {}
        invariant schemaCache == old(schemaCache) && idCache == old(idCache) && idCounter == old(idCounter)
        invariant subject in schemaCache
        invariant remaining <= schemaCache[subject].Keys
        invariant version in schemaCache[subject] ==> version in remaining
        decreases |remaining|
      {
        var schemaVersion := NextKey(remaining);
        if schemaVersion == version {
          schemaCache := schemaCache[subject := schemaCache[subject] - {schemaVersion}];
          return None;
        }
        remaining := remaining - {schemaVersion};
      }
      err := Some(UrlError("GET", SubjectVersionUrl(subject, version), SchemaNotFound));
    }
  }

  /** The last element of an ascending listing of a map's keys is its largest key. */
  lemma LastIsMax(versions: seq<int>, m: map<int, Schema>)
    requires |versions| > 0
    requires Ascending(versions)
    requires multiset(versions) == multiset(m.Keys)
    ensures m != map[]
    ensures versions[|versions| - 1] == MaxOf(m.Keys)
  {
    var last := versions[|versions| - 1];
    assert last in multiset(versions);
    var top := MaxOf(m.Keys);
    assert top in multiset(versions);
    var i :| 0 <= i < |versions| && versions[i] == top;
    assert versions[i] <= last;
  }

  /** An empty listing of a map's keys means the map is empty. */
  lemma NoVersions(versions: seq<int>, m: map<int, Schema>)
    requires |versions| == 0
    requires multiset(versions) == multiset(m.Keys)
    ensures m == map[]
  {
    assert |multiset(m.Keys)| == |m.Keys|;
  }

  /** Three `CreateSchema` calls on a fresh mock, for one subject and three
      different texts, get ids 1, 2, 3 and versions 1, 2, 3. */
  method SuccessiveCreates(url: string) returns (ids: seq<int>, versions: seq<int>)
    ensures ids == [1, 2, 3]
    ensures versions == [1, 2, 3]
  {
    var subject := "orders-value";
    var mock := new MockSchemaRegistryClient(url);

    var r1 := mock.CreateSchema(subject, "A", Protobuf);
    var s1 := Schema(1, "A", Some(Protobuf), 1, []);
    assert !AlreadyRegistered(map[], subject, "A");
    assert r1 == Ok(s1);
    assert mock.schemaCache == map[subject := map[1 := s1]];

    var r2 := mock.CreateSchema(subject, "B", Protobuf);
    var s2 := Schema(2, "B", Some(Protobuf), 2, []);
    assert VersionsOf(map[subject := map[1 := s1]], subject).Keys == {1};
    assert MaxOf({1}) == 1;
    assert !AlreadyRegistered(map[subject := map[1 := s1]], subject, "B");
    assert r2 == Ok(s2);
    assert mock.schemaCache == map[subject := map[1 := s1, 2 := s2]];

    var r3 := mock.CreateSchema(subject, "C", Protobuf);
    var s3 := Schema(3, "C", Some(Protobuf), 3, []);
    assert VersionsOf(map[subject := map[1 := s1, 2 := s2]], subject).Keys == {1, 2};
    assert MaxOf({1, 2}) == 2;
    assert !AlreadyRegistered(map[subject := map[1 := s1, 2 := s2]], subject, "C");
    assert r3 == Ok(s3);

    ids := [r1.value.id, r2.value.id, r3.value.id];
    versions := [r1.value.version, r2.value.version, r3.value.version];
  }
}
