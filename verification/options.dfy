/** The language-independent generator options: the `Options` record the
    entry point keeps, and the fluent `DefaultOptionsBuilder` that fills it in.

    A builder is modelled by the sequence of setter calls made on a fresh
    instance; `Build` replays them and copies every field into the record.
 */
module GeneratorOptions {
  import opened Results
  import opened Mappings
  import opened Codegen

  datatype GeneratorLanguage = Java | Kotlin

  /** The supported test frameworks; each carries the test-tool name a codegen understands. */
  datatype TestFramework = Junit5 | Spock

  /** The serialization libraries a codegen can target. */
  datatype SerializationLibraryKind = MicronautSerdeJackson | Jackson

  /** The date-time types generated models can use. */
  datatype DateTimeFormat = OffsetDatetime | ZonedDatetime | LocalDatetime

  /** `TestFramework.value`. */
  function TestToolName(t: TestFramework): (r: string)
    ensures r == OptTestJunit <==> t == Junit5
    ensures r == OptTestSpock <==> t == Spock
  {
    match t
    case Junit5 => OptTestJunit
    case Spock => OptTestSpock
  }

  /** `SerializationLibraryKind.name()`. */
  function LibraryName(k: SerializationLibraryKind): string {
    match k
    case MicronautSerdeJackson => "MICRONAUT_SERDE_JACKSON"
    case Jackson => "JACKSON"
  }

  /** `DateTimeFormat.name()`. */
  function FormatName(f: DateTimeFormat): string {
    match f
    case OffsetDatetime => "OFFSET_DATETIME"
    case ZonedDatetime => "ZONED_DATETIME"
    case LocalDatetime => "LOCAL_DATETIME"
  }

  /** The options record. Every reference may be null, the enum-typed ones included. */
  datatype Options = Options(
    lang: Option<GeneratorLanguage>,
    apiPackage: Option<string>,
    modelPackage: Option<string>,
    invokerPackage: Option<string>,
    artifactId: Option<string>,
    parameterMappings: Option<seq<ParameterMapping>>,
    responseBodyMappings: Option<seq<ResponseBodyMapping>>,
    beanValidation: bool,
    optional: bool,
    reactive: bool,
    generateHttpResponseAlways: bool,
    generateHttpResponseWhereRequired: bool,
    testFramework: Option<TestFramework>,
    serializationLibraryKind: Option<SerializationLibraryKind>,
    dateTimeFormat: Option<DateTimeFormat>
  )

  /** One call of a builder setter, with its argument. */
  datatype OptionsSetter =
    | WithLang(lang: Option<GeneratorLanguage>)
    | WithApiPackage(apiPackage: Option<string>)
    | WithInvokerPackage(invokerPackage: Option<string>)
    | WithModelPackage(modelPackage: Option<string>)
    | WithArtifactId(artifactId: Option<string>)
    | WithParameterMappings(parameterMappings: Option<seq<ParameterMapping>>)
    | WithResponseBodyMappings(responseBodyMappings: Option<seq<ResponseBodyMapping>>)
    | WithReactive(reactive: bool)
    | WithGenerateHttpResponseAlways(always: bool)
    | WithGenerateHttpResponseWhereRequired(whereRequired: bool)
    | WithBeanValidation(beanValidation: bool)
    | WithOptional(optional: bool)
    | WithTestFramework(testFramework: Option<TestFramework>)
    | WithSerializationLibrary(library: Option<SerializationLibraryKind>)
    | WithDateTimeFormat(format: Option<DateTimeFormat>)

  /** The fields of `Options`, to talk about them one at a time. */
  datatype OptionsField =
    | LangField | ApiPackageField | ModelPackageField | InvokerPackageField | ArtifactIdField
    | ParameterMappingsField | ResponseBodyMappingsField
    | BeanValidationField | OptionalField | ReactiveField | AlwaysField | WhereRequiredField
    | TestFrameworkField | LibraryField | FormatField

  /** The value of one field, whatever its type. */
  datatype FieldValue =
    | Flag(flag: bool)
    | Text(text: Option<string>)
    | Language(language: Option<GeneratorLanguage>)
    | ParameterList(parameterList: Option<seq<ParameterMapping>>)
    | BodyList(bodyList: Option<seq<ResponseBodyMapping>>)
    | Framework(framework: Option<TestFramework>)
    | Library(library: Option<SerializationLibraryKind>)
    | Format(format: Option<DateTimeFormat>)

  function FieldOf(s: OptionsSetter): OptionsField {
    match s
    case WithLang(_) => LangField
    case WithApiPackage(_) => ApiPackageField
    case WithInvokerPackage(_) => InvokerPackageField
    case WithModelPackage(_) => ModelPackageField
    case WithArtifactId(_) => ArtifactIdField
    case WithParameterMappings(_) => ParameterMappingsField
    case WithResponseBodyMappings(_) => ResponseBodyMappingsField
    case WithReactive(_) => ReactiveField
    case WithGenerateHttpResponseAlways(_) => AlwaysField
    case WithGenerateHttpResponseWhereRequired(_) => WhereRequiredField
    case WithBeanValidation(_) => BeanValidationField
    case WithOptional(_) => OptionalField
    case WithTestFramework(_) => TestFrameworkField
    case WithSerializationLibrary(_) => LibraryField
    case WithDateTimeFormat(_) => FormatField
  }

  function Argument(s: OptionsSetter): FieldValue {
    match s
    case WithLang(l) => Language(l)
    case WithApiPackage(p) => Text(p)
    case WithInvokerPackage(p) => Text(p)
    case WithModelPackage(p) => Text(p)
    case WithArtifactId(a) => Text(a)
    case WithParameterMappings(m) => ParameterList(m)
    case WithResponseBodyMappings(m) => BodyList(m)
    case WithReactive(b) => Flag(b)
    case WithGenerateHttpResponseAlways(b) => Flag(b)
    case WithGenerateHttpResponseWhereRequired(b) => Flag(b)
    case WithBeanValidation(b) => Flag(b)
    case WithOptional(b) => Flag(b)
    case WithTestFramework(t) => Framework(t)
    case WithSerializationLibrary(k) => Library(k)
    case WithDateTimeFormat(f) => Format(f)
  }

  function Field(o: Options, f: OptionsField): FieldValue {
    match f
    case LangField => Language(o.lang)
    case ApiPackageField => Text(o.apiPackage)
    case ModelPackageField => Text(o.modelPackage)
    case InvokerPackageField => Text(o.invokerPackage)
    case ArtifactIdField => Text(o.artifactId)
    case ParameterMappingsField => ParameterList(o.parameterMappings)
    case ResponseBodyMappingsField => BodyList(o.responseBodyMappings)
    case BeanValidationField => Flag(o.beanValidation)
    case OptionalField => Flag(o.optional)
    case ReactiveField => Flag(o.reactive)
    case AlwaysField => Flag(o.generateHttpResponseAlways)
    case WhereRequiredField => Flag(o.generateHttpResponseWhereRequired)
    case TestFrameworkField => Framework(o.testFramework)
    case LibraryField => Library(o.serializationLibraryKind)
    case FormatField => Format(o.dateTimeFormat)
  }

  /** The field initialisers of a fresh `DefaultOptionsBuilder`. */
  const DefaultOptions: Options := Options(
    Some(Java), None, None, None, None, None, None,
    true, false, true, false, true,
    Some(Junit5), Some(MicronautSerdeJackson), Some(ZonedDatetime)
  )

  /** One setter call: it records its argument verbatim in its own field. */
  function Set(o: Options, s: OptionsSetter): (r: Options)
    ensures Field(r, FieldOf(s)) == Argument(s)
  {
    match s
    case WithLang(l) => o.(lang := l)
    case WithApiPackage(p) => o.(apiPackage := p)
    case WithInvokerPackage(p) => o.(invokerPackage := p)
    case WithModelPackage(p) => o.(modelPackage := p)
    case WithArtifactId(a) => o.(artifactId := a)
    case WithParameterMappings(m) => o.(parameterMappings := m)
    case WithResponseBodyMappings(m) => o.(responseBodyMappings := m)
    case WithReactive(b) => o.(reactive := b)
    case WithGenerateHttpResponseAlways(b) => o.(generateHttpResponseAlways := b)
    case WithGenerateHttpResponseWhereRequired(b) => o.(generateHttpResponseWhereRequired := b)
    case WithBeanValidation(b) => o.(beanValidation := b)
    case WithOptional(b) => o.(optional := b)
    case WithTestFramework(t) => o.(testFramework := t)
    case WithSerializationLibrary(k) => o.(serializationLibraryKind := k)
    case WithDateTimeFormat(f) => o.(dateTimeFormat := f)
  }

  /** A setter leaves every other field as it was. */
  lemma SetKeepsOtherFields(o: Options, s: OptionsSetter, f: OptionsField)
    requires f != FieldOf(s)
    ensures Field(Set(o, s), f) == Field(o, f)
  {
    match f
    case LangField =>
    case ApiPackageField =>
    case ModelPackageField =>
    case InvokerPackageField =>
    case ArtifactIdField =>
    case ParameterMappingsField =>
    case ResponseBodyMappingsField =>
    case BeanValidationField =>
    case OptionalField =>
    case ReactiveField =>
    case AlwaysField =>
    case WhereRequiredField =>
    case TestFrameworkField =>
    case LibraryField =>
    case FormatField =>
  }

  /** A fresh builder, the setter calls in order, then `build`. */
  function Build(calls: seq<OptionsSetter>): Options {
    if calls == [] then DefaultOptions
    else Set(Build(calls[..|calls| - 1]), calls[|calls| - 1])
  }

  /** Reference reading: the argument of the last call that set `f`, if any. */
  function LastWrite(calls: seq<OptionsSetter>, f: OptionsField, default: FieldValue): FieldValue {
    if calls == [] then default
    else if FieldOf(calls[|calls| - 1]) == f then Argument(calls[|calls| - 1])
    else LastWrite(calls[..|calls| - 1], f, default)
  }

  /** Every field of the built record holds the last value set for it, or its default. */
  lemma {:induction false} BuildLastWriteWins(calls: seq<OptionsSetter>, f: OptionsField)
    ensures Field(Build(calls), f) == LastWrite(calls, f, Field(DefaultOptions, f))
  {
    if calls != [] {
      BuildLastWriteWins(calls[..|calls| - 1], f);
      if FieldOf(calls[|calls| - 1]) != f {
        SetKeepsOtherFields(Build(calls[..|calls| - 1]), calls[|calls| - 1], f);
      }
    }
  }

  /** Calls that set other fields do not disturb a field: appending them keeps its value. */
  lemma {:induction false} BuildIgnoresOtherSetters(calls: seq<OptionsSetter>, more: seq<OptionsSetter>, f: OptionsField)
    requires forall i :: 0 <= i < |more| ==> FieldOf(more[i]) != f
    ensures Field(Build(calls + more), f) == Field(Build(calls), f)
    decreases |more|
  {
    if more != [] {
      var init := more[..|more| - 1];
      assert (calls + more)[..|calls + more| - 1] == calls + init;
      BuildIgnoresOtherSetters(calls, init, f);
      SetKeepsOtherFields(Build(calls + init), more[|more| - 1], f);
    } else {
      assert calls + more == calls;
    }
  }

  /** The values an untouched builder yields. */
  lemma UntouchedBuilder()
    ensures Build([]).beanValidation && Build([]).reactive && Build([]).generateHttpResponseWhereRequired
    ensures !Build([]).optional && !Build([]).generateHttpResponseAlways
    ensures Build([]).testFramework == Some(Junit5) && Build([]).lang == Some(Java)
    ensures Build([]).serializationLibraryKind == Some(MicronautSerdeJackson)
    ensures Build([]).dateTimeFormat == Some(ZonedDatetime)
    ensures Build([]).apiPackage.None? && Build([]).modelPackage.None? && Build([]).invokerPackage.None?
    ensures Build([]).artifactId.None? && Build([]).parameterMappings.None? && Build([]).responseBodyMappings.None?
  {
  }
}
