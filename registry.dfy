/** The vocabulary shared by the HTTP registry client and the in-memory mock
    (schemaRegistryClient.go and mockSchemaRegistryClient.go): schema types and
    their wire spelling, the newline normalisation applied to Avro and JSON
    schema texts, Go's `strconv.Itoa`, and the subject cache key. */
module Registry {
  import opened Common

  /** Go's `type SchemaType string`: any string is a value of the type, the three
      constants below are the ones the registry knows. */
  datatype SchemaType = SchemaType(name: string)

  const Protobuf: SchemaType := SchemaType("PROTOBUF")
  const Avro: SchemaType := SchemaType("AVRO")
  const Json: SchemaType := SchemaType("JSON")

  /** A reference to another registered schema (a Protobuf import or a JSON `$ref`). */
  datatype Reference = Reference(name: string, subject: string, version: int)

  /** A registered schema as the client hands it out; the Avro codec and the JSON
      validator that Go attaches lazily are not part of the model. */
  datatype Schema = Schema(
    id: int,
    schema: string,
    schemaType: Option<SchemaType>,
    version: int,
    references: seq<Reference>)

  /** `SchemaType.String()`: Avro, the registry's default, is spelled as the empty
      string so that `omitempty` drops it from the request; every other type is its
      own name. */
  function SchemaTypeString(t: SchemaType): (s: string)
  {
    if t == Avro then "" else t.name
  }

  /** The request field is omitted exactly for Avro (and for the degenerate empty
      type name), and no two different non-Avro types share a spelling. */
  lemma SchemaTypeStringOmitsOnlyAvro(t: SchemaType, u: SchemaType)
    ensures SchemaTypeString(t) == "" <==> t == Avro || t.name == ""
    ensures t != Avro && u != Avro && t != u ==> SchemaTypeString(t) != SchemaTypeString(u)
    ensures SchemaTypeString(Protobuf) == "PROTOBUF" && SchemaTypeString(Json) == "JSON"
  {
    if t != Avro && u != Avro && t != u {
      assert t.name != u.name;
    }
  }

  predicate NoNewline(s: string)
  {
    forall i :: 0 <= i < |s| ==> s[i] != '\n'
  }

  /** `regexp.MustCompile(`\r?\n`).ReplaceAllString(s, " ")`: every line break,
      `\r\n` or a bare `\n`, becomes one space; a `\r` not followed by `\n` stays.
      The regular expression matches leftmost-first, so a `\r` right before `\n`
      is consumed with it. */
  function Normalized(s: string): (r: string)
    ensures NoNewline(r)
    ensures |r| <= |s|
    decreases |s|
  {
    if |s| == 0 then []
    else if s[0] == '\n' then [' '] + Normalized(s[1..])
    else if |s| >= 2 && s[0] == '\r' && s[1] == '\n' then [' '] + Normalized(s[2..])
    else [s[0]] + Normalized(s[1..])
  }

  /** A text without line feeds is left exactly as it is. */
  lemma {:induction false} NormalizedIdentity(s: string)
    requires NoNewline(s)
    ensures Normalized(s) == s
    decreases |s|
  {
    if |s| > 0 {
      assert s[0] != '\n';
      assert NoNewline(s[1..]) by {
        forall i | 0 <= i < |s| - 1 ensures s[1..][i] != '\n' {
          assert s[1..][i] == s[i + 1];
        }
      }
      NormalizedIdentity(s[1..]);
      if |s| >= 2 && s[0] == '\r' {
        assert s[1] != '\n';
      }
      assert s == [s[0]] + s[1..];
    }
  }

  /** Normalising twice is normalising once, so a text the registry stored
      normalised compares equal to the same text submitted again. */
  lemma NormalizedIdempotent(s: string)
    ensures Normalized(Normalized(s)) == Normalized(s)
  {
    NormalizedIdentity(Normalized(s));
  }

  /** The text a registry call sends for a schema of type `t`: Avro and JSON are
      normalised, Protobuf is sent verbatim, any other type is refused. */
  function NormalizedSchema(t: SchemaType, schema: string): (r: Outcome<string>)
    ensures r.Err? <==> t != Avro && t != Json && t != Protobuf
    ensures r.Err? ==> r.error == InvalidSchemaType
    ensures r.Ok? && t == Protobuf ==> r.value == schema
    ensures r.Ok? && t != Protobuf ==> NoNewline(r.value) && r.value == Normalized(schema)
  {
    if t == Avro || t == Json then Ok(Normalized(schema))
    else if t == Protobuf then Ok(schema)
    else Err(InvalidSchemaType)
  }

  // ---------------------------------------------------------------------------
  // Decimal integers (`strconv.Itoa`, and `%d` in `fmt.Sprintf`)
  // ---------------------------------------------------------------------------

  predicate IsDigit(c: char)
  {
    '0' <= c <= '9'
  }

  predicate AllDigits(s: string)
  {
    forall i :: 0 <= i < |s| ==> IsDigit(s[i])
  }

  function DigitChar(d: int): (c: char)
    requires 0 <= d < 10
    ensures IsDigit(c) && c as int - '0' as int == d
  {
    ('0' as int + d) as char
  }

  /** The decimal digits of `n`, most significant first, without leading zeros. */
  function NatString(n: nat): (s: string)
    ensures |s| >= 1 && AllDigits(s)
    ensures s[0] == '0' ==> n == 0
    decreases n
  {
    if n < 10 then [DigitChar(n)] else NatString(n / 10) + [DigitChar(n % 10)]
  }

  /** `strconv.Itoa`. */
  function Itoa(n: int): (s: string)
  {
    if n < 0 then "-" + NatString(-n) else NatString(n)
  }

  /** Reads a string of decimal digits back into its value. */
  function DigitsValue(s: string): (n: nat)
    requires AllDigits(s)
    decreases |s|
  {
    if |s| == 0 then 0 else 10 * DigitsValue(s[..|s| - 1]) + (s[|s| - 1] as int - '0' as int)
  }

  /** `strconv.Atoi` on the strings `Itoa` produces. */
  function Atoi(s: string): Option<int>
  {
    if |s| > 0 && AllDigits(s) then Some(DigitsValue(s))
    else if |s| > 1 && s[0] == '-' && AllDigits(s[1..]) then Some(0 - DigitsValue(s[1..]) as int)
    else None
  }

  lemma {:induction false} NatStringValue(n: nat)
    ensures DigitsValue(NatString(n)) == n
    decreases n
  {
    var s := NatString(n);
    if n >= 10 {
      NatStringValue(n / 10);
      assert s[..|s| - 1] == NatString(n / 10);
    }
  }

  /** `Itoa` loses nothing: the decimal string reads back as the same integer. */
  lemma ItoaRoundTrip(n: int)
    ensures Atoi(Itoa(n)) == Some(n)
  {
    if n < 0 {
      NatStringValue(-n);
      assert Itoa(n)[1..] == NatString(-n);
    } else {
      NatStringValue(n);
    }
  }

  /** Different integers have different decimal strings. */
  lemma ItoaInjective(m: int, n: int)
    requires Itoa(m) == Itoa(n)
    ensures m == n
  {
    ItoaRoundTrip(m);
    ItoaRoundTrip(n);
  }

  // ---------------------------------------------------------------------------
  // Subject cache keys
  // ---------------------------------------------------------------------------

  /** `cacheKey(subject, version)`: `fmt.Sprintf("%s-%s", subject, version)`. */
  function CacheKey(subject: string, version: string): (key: string)
  {
    subject + "-" + version
  }

  /** In a key whose version part is all digits, the dash that `CacheKey` inserts
      is the last dash. */
  lemma LastDash(subject: string, version: string)
    requires AllDigits(version)
    ensures CacheKey(subject, version)[|subject|] == '-'
    ensures forall i :: |subject| < i < |CacheKey(subject, version)| ==> CacheKey(subject, version)[i] != '-'
  {
    var k := CacheKey(subject, version);
    forall i | |subject| < i < |k| ensures k[i] != '-' {
      assert k[i] == version[i - |subject| - 1];
    }
  }

  /** Keys of numbered versions never collide: the digits after the last `-`
      determine the version, and what precedes that `-` is the subject, even when
      the subject itself contains dashes. */
  lemma CacheKeyInjective(s1: string, v1: nat, s2: string, v2: nat)
    requires CacheKey(s1, Itoa(v1)) == CacheKey(s2, Itoa(v2))
    ensures s1 == s2 && v1 == v2
  {
    var d1, d2 := Itoa(v1), Itoa(v2);
    var k := CacheKey(s1, d1);
    LastDash(s1, d1);
    LastDash(s2, d2);
    if |d1| < |d2| {
      assert false;
    } else if |d2| < |d1| {
      assert false;
    } else {
      assert s1 == k[..|s1|] == s2;
      assert d1 == k[|s1| + 1..] == d2;
      ItoaInjective(v1, v2);
    }
  }

  /** The `latest` entry of a subject is kept apart from its numbered versions. */
  lemma LatestKeyIsNotAVersionKey(s1: string, s2: string, v: int)
    ensures CacheKey(s1, "latest") != CacheKey(s2, Itoa(v))
  {
    var d := Itoa(v);
    var k := CacheKey(s2, d);
    assert k[|k| - 1] == d[|d| - 1];
    assert IsDigit(d[|d| - 1]) by {
      if v < 0 {
        assert d[|d| - 1] == NatString(-v)[|NatString(-v)| - 1];
      }
    }
    assert CacheKey(s1, "latest")[|CacheKey(s1, "latest")| - 1] == 't';
  }
}
