/** The parameter and response-body mapping records the generator accepts.
    Both are plain records; their Java classes are not part of this model,
    so the fields are those the test-suite driver fills in. */
module Mappings {
  import opened Results

  /** `ParameterMapping.ParameterLocation`. Its class is not part of this
      model, so the five constants are an assumption. */
  datatype ParameterLocation = Path | Query | Header | Cookie | Body

  /** Rewrites how the parameter `name` in `location` is rendered. */
  datatype ParameterMapping = ParameterMapping(
    name: Option<string>,
    location: ParameterLocation,
    mappedType: Option<string>,
    mappedName: Option<string>,
    isValidated: bool
  )

  /** Rewrites a response body that carries the header `headerName`. */
  datatype ResponseBodyMapping = ResponseBodyMapping(
    headerName: Option<string>,
    mappedBodyType: Option<string>,
    isListWrapper: bool,
    isValidated: bool
  )

  function LocationName(l: ParameterLocation): string {
    match l
    case Path => "PATH"
    case Query => "QUERY"
    case Header => "HEADER"
    case Cookie => "COOKIE"
    case Body => "BODY"
  }

  /** `ParameterLocation.valueOf(name)` for a non-null name: exact, case-sensitive. */
  function LocationValueOf(name: string): (r: Option<ParameterLocation>)
    ensures r.Some? ==> LocationName(r.value) == name
    ensures r.None? ==> forall l :: LocationName(l) != name
  {
    if name == "PATH" then Some(Path)
    else if name == "QUERY" then Some(Query)
    else if name == "HEADER" then Some(Header)
    else if name == "COOKIE" then Some(Cookie)
    else if name == "BODY" then Some(Body)
    else None
  }
}
