/**
 * The resort configuration of backend/config.py and `get_resort_by_name`, a
 * case-insensitive linear search that returns the first match or raises.
 */
module ResortConfig {

  import opened Wrappers
  import opened Text

  /** Coordinates are only carried along, never computed with. */
  type Degrees = real

  datatype Location = Location(latitude: Degrees, longitude: Degrees)

  datatype ResortMetadata = ResortMetadata(fullName: string, region: string)

  datatype Resort = Resort(name: string, state: string, location: Location, metadata: ResortMetadata)

  datatype ResortsConfig = ResortsConfig(resorts: seq<Resort>)

  /** The ValueError raised when no resort matches. */
  datatype LookupError = ResortNotFound(name: string)

  /** Whether resort `k` of the list is named `name`, ignoring case. */
  predicate NamedAt(config: ResortsConfig, k: int, name: string)
    requires 0 <= k < |config.resorts|
  {
    EqualsIgnoreCase(config.resorts[k].name, name)
  }

  /** The first resort of the list named `name`, ignoring case, if there is one. */
  function FirstMatch(resorts: seq<Resort>, name: string): Option<Resort> {
    if resorts == [] then None
    else if EqualsIgnoreCase(resorts[0].name, name) then Some(resorts[0])
    else FirstMatch(resorts[1..], name)
  }

  /**
   * `get_resort_by_name`: scans the resorts in list order and returns the
   * first whose name equals `name` case-insensitively; raises when none does.
   */
  method GetResortByName(config: ResortsConfig, name: string) returns (r: Result<Resort, LookupError>)
    ensures r.Ok? ==> exists k :: 0 <= k < |config.resorts| && NamedAt(config, k, name) &&
                        r.value == config.resorts[k] &&
                        forall j :: 0 <= j < k ==> !NamedAt(config, j, name)
    ensures r.Err? <==> forall k :: 0 <= k < |config.resorts| ==> !NamedAt(config, k, name)
    ensures r.Err? ==> r.error == ResortNotFound(name)
    ensures r.Ok? <==> FirstMatch(config.resorts, name).Some?
    ensures r.Ok? ==> r.value == FirstMatch(config.resorts, name).value
  {
    var wanted := Lower(name);
    var k := 0;
    while k < |config.resorts|
      invariant 0 <= k <= |config.resorts|
      invariant forall j :: 0 <= j < k ==> !NamedAt(config, j, name)
      invariant FirstMatch(config.resorts, name) == FirstMatch(config.resorts[k..], name)
    {
      assert config.resorts[k..][1..] == config.resorts[k + 1..];
      if Lower(config.resorts[k].name) == wanted {
        return Ok(config.resorts[k]);
      }
      k := k + 1;
    }
    return Err(ResortNotFound(name));
  }

  /** ASCII lowercasing is idempotent: lowercasing an already lowercased name changes nothing. */
  lemma {:induction false} LowerIdempotent(s: string)
    ensures Lower(Lower(s)) == Lower(s)
  {
    forall i | 0 <= i < |s|
      ensures Lower(Lower(s))[i] == Lower(s)[i]
    {
      var c := s[i];
      if 'A' <= c <= 'Z' {
        assert LowerChar(c) as int == c as int + 32;
      }
    }
  }

  /** A query and its lowercased form select the same resorts, and so the same first match. */
  lemma LowercasedQuery(config: ResortsConfig, name: string, k: int)
    requires 0 <= k < |config.resorts|
    ensures NamedAt(config, k, name) <==> NamedAt(config, k, Lower(name))
    ensures FirstMatch(config.resorts, name) == FirstMatch(config.resorts, Lower(name))
  {
    LowerIdempotent(name);
    FirstMatchIgnoresCase(config.resorts, name, Lower(name));
  }

  /**
   * The lookup depends on the query only up to case: two queries that are
   * equal ignoring case find the same resort, or both find none.
   */
  lemma {:induction false} FirstMatchIgnoresCase(resorts: seq<Resort>, a: string, b: string)
    requires EqualsIgnoreCase(a, b)
    ensures FirstMatch(resorts, a) == FirstMatch(resorts, b)
  {
    if resorts != [] {
      FirstMatchIgnoresCase(resorts[1..], a, b);
    }
  }
}
