/** The seven categories of generated files, each bound to the generator
    property the framework reads to switch that category on or off. */
module OutputKinds {
  import opened Results

  datatype OutputKind = Models | ModelTests | ModelDocs | Apis | ApiTests | ApiDocs | SupportingFiles

  /** `OutputKind.values()`, in declaration order. */
  const AllKinds: seq<OutputKind> := [Models, ModelTests, ModelDocs, Apis, ApiTests, ApiDocs, SupportingFiles]

  /** The enum constant's `name()`. */
  function Name(k: OutputKind): string {
    match k
    case Models => "MODELS"
    case ModelTests => "MODEL_TESTS"
    case ModelDocs => "MODEL_DOCS"
    case Apis => "APIS"
    case ApiTests => "API_TESTS"
    case ApiDocs => "API_DOCS"
    case SupportingFiles => "SUPPORTING_FILES"
  }

  /** The framework's generator-property token for the kind. */
  function GeneratorProperty(k: OutputKind): string {
    match k
    case Models => "models"
    case ModelTests => "modelTests"
    case ModelDocs => "modelDocs"
    case Apis => "apis"
    case ApiTests => "apiTests"
    case ApiDocs => "apiDocs"
    case SupportingFiles => "supportingFiles"
  }

  lemma AllKindsComplete(k: OutputKind)
    ensures k in AllKinds
  {
  }

  /** No two kinds share a name, a token, or a name with another's token. */
  lemma TokensDistinct(a: OutputKind, b: OutputKind)
    requires a != b
    ensures Name(a) != Name(b) && GeneratorProperty(a) != GeneratorProperty(b)
    ensures Name(a) != GeneratorProperty(b)
  {
  }

  predicate Matches(k: OutputKind, name: string) {
    Name(k) == name || GeneratorProperty(k) == name
  }

  /** The loop of `OutputKind.of` over `kinds`: the first kind that matches `name`. */
  function FindKind(kinds: seq<OutputKind>, name: string): (r: Option<OutputKind>)
    ensures r.Some? ==> r.value in kinds && Matches(r.value, name)
    ensures r.None? ==> forall i :: 0 <= i < |kinds| ==> !Matches(kinds[i], name)
  {
    if kinds == [] then None
    else if Matches(kinds[0], name) then Some(kinds[0])
    else FindKind(kinds[1..], name)
  }

  /** `OutputKind.of(name)`: look a kind up by enum name or by generator property;
      anything else is an `IllegalArgumentException`. */
  function Of(name: string): (r: Result<OutputKind, string>)
    ensures r.Success? <==> exists k :: Matches(k, name)
    ensures r.Success? ==> Matches(r.value, name)
    ensures r.Failure? ==> r.error == "Unknown output kind '" + name + "'"
  {
    match FindKind(AllKinds, name)
    case Some(k) => Success(k)
    case None =>
      assert forall k :: !Matches(k, name) by {
        forall k ensures !Matches(k, name) {
          AllKindsComplete(k);
        }
      }
      Failure("Unknown output kind '" + name + "'")
  }

  /** Looking a kind up by its name or by its token gives back that kind. */
  lemma OfRoundTrip(k: OutputKind)
    ensures Of(Name(k)) == Success(k)
    ensures Of(GeneratorProperty(k)) == Success(k)
  {
    assert Matches(k, Name(k)) && Matches(k, GeneratorProperty(k));
    var a := Of(Name(k)).value;
    if a != k {
      TokensDistinct(a, k);
      TokensDistinct(k, a);
    }
    var b := Of(GeneratorProperty(k)).value;
    if b != k {
      TokensDistinct(b, k);
      TokensDistinct(k, b);
    }
  }

  /** Name and token are both accepted and agree (both directions of the lookup). */
  lemma OfIsBijective(k: OutputKind, name: string)
    ensures Of(name) == Success(k) <==> name == Name(k) || name == GeneratorProperty(k)
  {
    OfRoundTrip(k);
    if Of(name) == Success(k) {
      assert Matches(k, name);
    }
  }
}
