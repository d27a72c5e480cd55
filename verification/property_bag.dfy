/** The upstream framework's loosely typed `additionalProperties` map and the
    three ways the codegen reads from and writes to it: `containsKey`/`get`,
    `convertPropertyToBoolean`, and `writePropertyBack`.
 */
module PropertyBag {
  import opened Results
  import opened Strings

  /** A property value as the framework stores it: Java's `null`, a `Boolean`,
      a `String`, or a `List` of strings. */
  datatype Value = Null | Bool(b: bool) | Str(s: string) | StrList(items: seq<string>)

  type Properties = map<string, Value>

  /** `additionalProperties.get(key)`: `null` both for a missing key and for a key mapped to `null`. */
  function Get(props: Properties, key: string): Value {
    if key in props then props[key] else Null
  }

  /** `writePropertyBack(key, value)`: a plain `put`. */
  function WriteBack(props: Properties, key: string, v: Value): (r: Properties)
    ensures r.Keys == props.Keys + {key}
    ensures Get(r, key) == v
    ensures forall k :: k != key ==> Get(r, k) == Get(props, k)
  {
    props[key := v]
  }

  /** A nullable string as a property value. */
  function OfString(s: Option<string>): Value {
    match s
    case Some(t) => Str(t)
    case None => Null
  }

  /** A nullable list of strings as a property value. */
  function OfList(l: Option<seq<string>>): Value {
    match l
    case Some(items) => StrList(items)
    case None => Null
  }

  /** `Object.toString` of a non-null property value; a list prints as `[a, b]`. */
  function ToJavaString(v: Value): string
    requires v != Null
  {
    match v
    case Bool(b) => if b then "true" else "false"
    case Str(s) => s
    case StrList(items) => "[" + Join(items, ", ") + "]"
  }

  /** `Boolean.parseBoolean`: true exactly for "true" in any letter case. */
  predicate ParseBoolean(s: string) {
    && |s| == 4
    && (s[0] == 't' || s[0] == 'T')
    && (s[1] == 'r' || s[1] == 'R')
    && (s[2] == 'u' || s[2] == 'U')
    && (s[3] == 'e' || s[3] == 'E')
  }

  /** `convertPropertyToBoolean`: a `Boolean` as is, a `String` parsed,
      anything else (a list, or `null`) false. */
  function ConvertToBoolean(v: Value): (r: bool)
    ensures r ==> v == Bool(true) || (v.Str? && |v.s| == 4)
    ensures v == Bool(true) || v == Str("true") || v == Str("TRUE") ==> r
  {
    match v
    case Bool(b) => b
    case Str(s) => ParseBoolean(s)
    case _ => false
  }
}
