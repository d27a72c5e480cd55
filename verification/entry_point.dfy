/** The generator's entry point: the builder that collects what to generate,
    the validation in `build`, the way `configureOptions` pushes the options
    into the selected codegen, and the generator-property flags `generate`
    hands to the framework.

    Constructing an upstream codegen is not modelled: a `forX` call receives
    the state the unseen constructors leave behind (`upstream`) and stamps it
    with the concrete kind. Reading the OpenAPI definition and running the
    framework's generator are left out; `generate` returns the configured
    codegen and the flag map instead.
 */
module CodeGeneratorEntryPoint {
  import opened Results
  import opened Mappings
  import opened Codegen
  import opened OutputKinds
  import opened GeneratorOptions
  import KotlinClient

  // ---------------------------------------------------------------------------
  // The option records of the other three codegens, as far as they are read here
  // ---------------------------------------------------------------------------

  datatype JavaServerOptions = JavaServerOptions(
    controllerPackage: Option<string>,
    generateImplementationFiles: bool,
    generateOperationsToReturnNotImplemented: bool,
    generateControllerFromExamples: bool,
    useAuth: bool,
    lombok: bool,
    plural: bool,
    fluxForArrays: bool,
    generatedAnnotation: bool
  )

  datatype JavaClientOptions = JavaClientOptions(
    additionalClientTypeAnnotations: Option<seq<string>>,
    clientId: Option<string>,
    authorizationFilterPattern: Option<string>,
    basePathSeparator: Option<string>,
    useAuth: bool,
    lombok: bool,
    plural: bool,
    fluxForArrays: bool,
    generatedAnnotation: bool
  )

  datatype KotlinServerOptions = KotlinServerOptions(
    controllerPackage: Option<string>,
    generateImplementationFiles: bool,
    generateOperationsToReturnNotImplemented: bool,
    generateControllerFromExamples: bool,
    generatedAnnotation: bool,
    ksp: bool,
    useAuth: bool,
    plural: bool,
    fluxForArrays: bool
  )

  // ---------------------------------------------------------------------------
  // DefaultBuilder
  // ---------------------------------------------------------------------------

  /** The builder's fields; `None` is a field still null. */
  datatype Builder = Builder(
    options: Option<Options>,
    codeGenerator: Option<State>,
    definitionFile: Option<string>,
    outputDirectory: Option<string>,
    outputs: set<OutputKind>,
    javaServerOptions: Option<JavaServerOptions>,
    javaClientOptions: Option<JavaClientOptions>,
    kotlinServerOptions: Option<KotlinServerOptions>,
    kotlinClientOptions: Option<KotlinClient.ClientOptions>
  )

  /** `MicronautCodeGeneratorEntryPoint.builder()`: everything null, no outputs. */
  const NewBuilder: Builder := Builder(None, None, None, None, {}, None, None, None, None)

  /** One call on the builder, with its argument. A `forX` call carries the
      state the unseen codegen constructor produces and the options its
      configurer built. */
  datatype BuilderCall =
    | ForCodeGenerator(generator: State)
    | ForJavaClient(javaClientUpstream: State, javaClient: JavaClientOptions)
    | ForJavaServer(javaServerUpstream: State, javaServer: JavaServerOptions)
    | ForKotlinClient(kotlinClientUpstream: State, kotlinClient: seq<KotlinClient.ClientSetter>)
    | ForKotlinServer(kotlinServerUpstream: State, kotlinServer: KotlinServerOptions)
    | WithDefinitionFile(file: Option<string>)
    | WithOutputDirectory(directory: Option<string>)
    | WithOutputs(kinds: seq<OutputKind>)
    | WithOptions(setters: seq<OptionsSetter>)

  /** Lines 314-382: each call replaces the field it is about; `withOutputs`
      adds to the set; `forX` replaces the codegen and sets its own option
      record but leaves the other records as they were. */
  function Apply(b: Builder, call: BuilderCall): (r: Builder)
    ensures r.outputs == if call.WithOutputs? then b.outputs + KindSet(call.kinds) else b.outputs
    ensures call.ForJavaClient? ==> r.codeGenerator.Some? && r.codeGenerator.value.kind == JavaClient
    ensures call.ForJavaServer? ==> r.codeGenerator.Some? && r.codeGenerator.value.kind == JavaServer
    ensures call.ForKotlinClient? ==> r.codeGenerator.Some? && r.codeGenerator.value.kind == KotlinClient
    ensures call.ForKotlinServer? ==> r.codeGenerator.Some? && r.codeGenerator.value.kind == KotlinServer
    ensures !call.ForJavaClient? ==> r.javaClientOptions == b.javaClientOptions
    ensures !call.ForJavaServer? ==> r.javaServerOptions == b.javaServerOptions
    ensures !call.ForKotlinClient? ==> r.kotlinClientOptions == b.kotlinClientOptions
    ensures !call.ForKotlinServer? ==> r.kotlinServerOptions == b.kotlinServerOptions
    ensures !call.WithOptions? ==> r.options == b.options
    ensures !call.WithDefinitionFile? ==> r.definitionFile == b.definitionFile
    ensures !call.WithOutputDirectory? ==> r.outputDirectory == b.outputDirectory
    ensures call.ForCodeGenerator? ==> r.codeGenerator == Some(call.generator)
    ensures call.ForJavaClient? ==>
      r.codeGenerator == Some(call.javaClientUpstream.(kind := JavaClient)) && r.javaClientOptions == Some(call.javaClient)
    ensures call.ForJavaServer? ==>
      r.codeGenerator == Some(call.javaServerUpstream.(kind := JavaServer)) && r.javaServerOptions == Some(call.javaServer)
    ensures call.ForKotlinClient? ==>
      && r.codeGenerator == Some(KotlinClient.Construct(call.kotlinClientUpstream))
      && r.kotlinClientOptions == Some(KotlinClient.Build(call.kotlinClient))
    ensures call.ForKotlinServer? ==>
      r.codeGenerator == Some(call.kotlinServerUpstream.(kind := KotlinServer)) && r.kotlinServerOptions == Some(call.kotlinServer)
    ensures (call.WithDefinitionFile? || call.WithOutputDirectory? || call.WithOutputs? || call.WithOptions?) ==>
      r.codeGenerator == b.codeGenerator
    ensures call.WithDefinitionFile? ==> r.definitionFile == call.file
    ensures call.WithOutputDirectory? ==> r.outputDirectory == call.directory
    ensures call.WithOptions? ==> r.options == Some(GeneratorOptions.Build(call.setters))
  {
    match call
    case ForCodeGenerator(g) => b.(codeGenerator := Some(g))
    case ForJavaClient(up, o) => b.(codeGenerator := Some(up.(kind := JavaClient)), javaClientOptions := Some(o))
    case ForJavaServer(up, o) => b.(codeGenerator := Some(up.(kind := JavaServer)), javaServerOptions := Some(o))
    case ForKotlinClient(up, calls) =>
      b.(codeGenerator := Some(KotlinClient.Construct(up)), kotlinClientOptions := Some(KotlinClient.Build(calls)))
    case ForKotlinServer(up, o) => b.(codeGenerator := Some(up.(kind := KotlinServer)), kotlinServerOptions := Some(o))
    case WithDefinitionFile(f) => b.(definitionFile := f)
    case WithOutputDirectory(d) => b.(outputDirectory := d)
    case WithOutputs(ks) => b.(outputs := b.outputs + KindSet(ks))
    case WithOptions(setters) => b.(options := Some(GeneratorOptions.Build(setters)))
  }

  /** The builder after the calls, in order. */
  function Run(b: Builder, calls: seq<BuilderCall>): Builder {
    if calls == [] then b else Apply(Run(b, calls[..|calls| - 1]), calls[|calls| - 1])
  }

  /** The kinds a `withOutputs` call names, as a set. */
  function KindSet(kinds: seq<OutputKind>): set<OutputKind> {
    set k | k in kinds
  }

  /** Reference reading: every kind any `withOutputs` call asked for. */
  function Requested(calls: seq<BuilderCall>): set<OutputKind> {
    if calls == [] then {}
    else
      var last := calls[|calls| - 1];
      Requested(calls[..|calls| - 1]) + (if last.WithOutputs? then KindSet(last.kinds) else {})
  }

  /** Lines 308 and 371-374: outputs only accumulate; after any calls the set is
      what it was plus everything any `withOutputs` asked for. */
  lemma {:induction false} OutputsAccumulate(b: Builder, calls: seq<BuilderCall>)
    ensures Run(b, calls).outputs == b.outputs + Requested(calls)
  {
    if calls != [] {
      OutputsAccumulate(b, calls[..|calls| - 1]);
    }
  }

  /** The built entry point: every field of the builder, the codegen and the
      definition file now known to be non-null. */
  datatype EntryPoint = EntryPoint(
    definitionFile: string,
    outputDirectory: Option<string>,
    codeGenerator: State,
    outputs: set<OutputKind>,
    options: Option<Options>,
    javaServerOptions: Option<JavaServerOptions>,
    javaClientOptions: Option<JavaClientOptions>,
    kotlinServerOptions: Option<KotlinServerOptions>,
    kotlinClientOptions: Option<KotlinClient.ClientOptions>
  )

  /** Lines 384-405: `validate`, then the entry point. Every output kind's
      validation action is `HAS_OUTPUT` (line 302), so any enabled output
      needs an output directory. */
  function Build(b: Builder): (r: Result<EntryPoint, string>)
    ensures r.Success? <==>
      b.definitionFile.Some? && b.codeGenerator.Some? && (b.outputs == {} || b.outputDirectory.Some?)
    ensures b.definitionFile.None? ==> r == Failure("OpenAPI definition file must not be null")
    ensures b.definitionFile.Some? && b.codeGenerator.None? ==>
      r == Failure("You must select either server or client generation")
    ensures b.definitionFile.Some? && b.codeGenerator.Some? && b.outputs != {} && b.outputDirectory.None? ==>
      r == Failure("Sources directory must not be null")
    ensures r.Success? ==>
      && Some(r.value.definitionFile) == b.definitionFile && Some(r.value.codeGenerator) == b.codeGenerator
      && r.value.outputDirectory == b.outputDirectory && r.value.outputs == b.outputs
      && r.value.options == b.options
      && r.value.javaServerOptions == b.javaServerOptions && r.value.javaClientOptions == b.javaClientOptions
      && r.value.kotlinServerOptions == b.kotlinServerOptions && r.value.kotlinClientOptions == b.kotlinClientOptions
  {
    if b.definitionFile.None? then Failure("OpenAPI definition file must not be null")
    else if b.codeGenerator.None? then Failure("You must select either server or client generation")
    else if b.outputs != {} && b.outputDirectory.None? then Failure("Sources directory must not be null")
    else Success(EntryPoint(
      b.definitionFile.value, b.outputDirectory, b.codeGenerator.value, b.outputs, b.options,
      b.javaServerOptions, b.javaClientOptions, b.kotlinServerOptions, b.kotlinClientOptions))
  }

  /** With no output enabled, a missing output directory is accepted. */
  lemma NoOutputsNeedNoDirectory(b: Builder)
    requires b.definitionFile.Some? && b.codeGenerator.Some? && b.outputs == {}
    ensures Build(b).Success? && Build(b).value.outputDirectory == b.outputDirectory
  {
  }

  // ---------------------------------------------------------------------------
  // configure*Options
  // ---------------------------------------------------------------------------

  /** Lines 181-195: the Java server settings; `ksp` is not a Java setting. */
  function JavaServerFields(s: ServerFields, o: JavaServerOptions): (r: ServerFields)
    ensures r.controllerPackage == o.controllerPackage.GetOr(s.controllerPackage)
    ensures r.ksp == s.ksp
    ensures r.(controllerPackage := s.controllerPackage, ksp := s.ksp)
      == ServerFields(s.controllerPackage, o.generateImplementationFiles, o.generateOperationsToReturnNotImplemented,
                      o.generateControllerFromExamples, o.useAuth, o.lombok, o.plural, o.fluxForArrays,
                      o.generatedAnnotation, s.ksp)
  {
    s.(
      controllerPackage := if o.controllerPackage.Some? then o.controllerPackage.value else s.controllerPackage,
      generateImplementationFiles := o.generateImplementationFiles,
      generateOperationsToReturnNotImplemented := o.generateOperationsToReturnNotImplemented,
      generateControllerFromExamples := o.generateControllerFromExamples,
      useAuth := o.useAuth,
      lombok := o.lombok,
      plural := o.plural,
      fluxForArrays := o.fluxForArrays,
      generatedAnnotation := o.generatedAnnotation
    )
  }

  /** Lines 219-233: the Kotlin server settings; `lombok` is not a Kotlin setting. */
  function KotlinServerFields(s: ServerFields, o: KotlinServerOptions): (r: ServerFields)
    ensures r.controllerPackage == o.controllerPackage.GetOr(s.controllerPackage)
    ensures r.lombok == s.lombok
    ensures r.(controllerPackage := s.controllerPackage, lombok := s.lombok)
      == ServerFields(s.controllerPackage, o.generateImplementationFiles, o.generateOperationsToReturnNotImplemented,
                      o.generateControllerFromExamples, o.useAuth, s.lombok, o.plural, o.fluxForArrays,
                      o.generatedAnnotation, o.ksp)
  {
    s.(
      controllerPackage := if o.controllerPackage.Some? then o.controllerPackage.value else s.controllerPackage,
      generateImplementationFiles := o.generateImplementationFiles,
      generateOperationsToReturnNotImplemented := o.generateOperationsToReturnNotImplemented,
      generateControllerFromExamples := o.generateControllerFromExamples,
      generatedAnnotation := o.generatedAnnotation,
      ksp := o.ksp,
      useAuth := o.useAuth,
      plural := o.plural,
      fluxForArrays := o.fluxForArrays
    )
  }

  /** Lines 197-217: the Java client settings. The client id, the filter pattern
      and the separator are each set from the codegen's own field, so they stay
      as they were whatever the options say; `ksp` is not a Java setting. */
  function JavaClientFields(c: ClientFields, o: JavaClientOptions): (r: ClientFields)
    ensures r.clientId == c.clientId && r.authorizationFilterPattern == c.authorizationFilterPattern
    ensures r.basePathSeparator == c.basePathSeparator && r.ksp == c.ksp
    ensures r.additionalClientTypeAnnotations ==
      if o.additionalClientTypeAnnotations.Some? then o.additionalClientTypeAnnotations else c.additionalClientTypeAnnotations
    ensures r.configureAuthorization == o.useAuth && r.lombok == o.lombok && r.plural == o.plural
    ensures r.fluxForArrays == o.fluxForArrays && r.generatedAnnotation == o.generatedAnnotation
  {
    c.(
      additionalClientTypeAnnotations :=
        if o.additionalClientTypeAnnotations.Some? then o.additionalClientTypeAnnotations else c.additionalClientTypeAnnotations,
      clientId := if o.clientId.Some? then c.clientId else c.clientId,
      authorizationFilterPattern := if o.authorizationFilterPattern.Some? then c.authorizationFilterPattern else c.authorizationFilterPattern,
      basePathSeparator := if o.basePathSeparator.Some? then c.basePathSeparator else c.basePathSeparator,
      configureAuthorization := o.useAuth,
      lombok := o.lombok,
      plural := o.plural,
      fluxForArrays := o.fluxForArrays,
      generatedAnnotation := o.generatedAnnotation
    )
  }

  /** Lines 235-255 with the setters at KotlinMicronautClientCodegen.java:175-193:
      as for Java, the client id, the filter pattern and the separator are
      self-assigned and stay as they were; `lombok` is not a Kotlin client setting. */
  function KotlinClientFields(c: ClientFields, o: KotlinClient.ClientOptions): (r: ClientFields)
    ensures r.clientId == c.clientId && r.authorizationFilterPattern == c.authorizationFilterPattern
    ensures r.basePathSeparator == c.basePathSeparator && r.lombok == c.lombok
    ensures r.additionalClientTypeAnnotations ==
      if o.additionalClientTypeAnnotations.Some? then o.additionalClientTypeAnnotations else c.additionalClientTypeAnnotations
    ensures r.configureAuthorization == o.useAuth && r.ksp == o.ksp && r.plural == o.plural
    ensures r.fluxForArrays == o.fluxForArrays && r.generatedAnnotation == o.generatedAnnotation
  {
    c.(
      additionalClientTypeAnnotations :=
        if o.additionalClientTypeAnnotations.Some? then o.additionalClientTypeAnnotations else c.additionalClientTypeAnnotations,
      clientId := if o.clientId.Some? then c.clientId else c.clientId,
      authorizationFilterPattern := if o.authorizationFilterPattern.Some? then c.authorizationFilterPattern else c.authorizationFilterPattern,
      basePathSeparator := if o.basePathSeparator.Some? then c.basePathSeparator else c.basePathSeparator,
      generatedAnnotation := o.generatedAnnotation,
      ksp := o.ksp,
      configureAuthorization := o.useAuth,
      plural := o.plural,
      fluxForArrays := o.fluxForArrays
    )
  }

  /** `configureJavaServerOptions`: only a Java server codegen with a record takes it. */
  function ConfigureJavaServerOptions(cg: State, o: Option<JavaServerOptions>): (r: State)
    ensures r == cg.(server := r.server)
    ensures r.server == if o.Some? && cg.kind == JavaServer then JavaServerFields(cg.server, o.value) else cg.server
  {
    if o.Some? && cg.kind == JavaServer then cg.(server := JavaServerFields(cg.server, o.value)) else cg
  }

  /** `configureJavaClientOptions`: only a Java client codegen with a record takes it. */
  function ConfigureJavaClientOptions(cg: State, o: Option<JavaClientOptions>): (r: State)
    ensures r == cg.(client := r.client)
    ensures r.client == if o.Some? && cg.kind == JavaClient then JavaClientFields(cg.client, o.value) else cg.client
  {
    if o.Some? && cg.kind == JavaClient then cg.(client := JavaClientFields(cg.client, o.value)) else cg
  }

  /** `configureKotlinServerOptions`: only a Kotlin server codegen with a record takes it. */
  function ConfigureKotlinServerOptions(cg: State, o: Option<KotlinServerOptions>): (r: State)
    ensures r == cg.(server := r.server)
    ensures r.server == if o.Some? && cg.kind == KotlinServer then KotlinServerFields(cg.server, o.value) else cg.server
  {
    if o.Some? && cg.kind == KotlinServer then cg.(server := KotlinServerFields(cg.server, o.value)) else cg
  }

  /** `configureKotlinClientOptions`: only a Kotlin client codegen with a record takes it. */
  function ConfigureKotlinClientOptions(cg: State, o: Option<KotlinClient.ClientOptions>): (r: State)
    ensures r == cg.(client := r.client)
    ensures r.client == if o.Some? && cg.kind == KotlinClient then KotlinClientFields(cg.client, o.value) else cg.client
  {
    if o.Some? && cg.kind == KotlinClient then cg.(client := KotlinClientFields(cg.client, o.value)) else cg
  }

  /** The client configurers never change the client id, the filter pattern or
      the separator, whatever the option records hold. */
  lemma ClientConfigurersKeepSelfAssigned(cg: State, j: Option<JavaClientOptions>, k: Option<KotlinClient.ClientOptions>)
    ensures var r := ConfigureKotlinClientOptions(ConfigureJavaClientOptions(cg, j), k);
      && r.client.clientId == cg.client.clientId
      && r.client.authorizationFilterPattern == cg.client.authorizationFilterPattern
      && r.client.basePathSeparator == cg.client.basePathSeparator
  {
  }

  // ---------------------------------------------------------------------------
  // configureOptions
  // ---------------------------------------------------------------------------

  /** Line 130: the Java branch is taken for a Java codegen when the language is
      unset or Java. */
  predicate JavaBranch(o: Options, k: Kind) {
    (o.lang.None? || o.lang == Some(Java)) && IsJava(k)
  }

  /** Line 154: the Kotlin branch is taken for a Kotlin codegen when the language is Kotlin. */
  predicate KotlinBranch(o: Options, k: Kind) {
    o.lang == Some(Kotlin) && IsKotlin(k)
  }

  /** The three enum-valued settings a branch dereferences are all non-null. */
  predicate EnumsSet(o: Options) {
    o.testFramework.Some? && o.serializationLibraryKind.Some? && o.dateTimeFormat.Some?
  }

  /** At most one branch applies. */
  lemma BranchesExclusive(o: Options, k: Kind)
    ensures !(JavaBranch(o, k) && KotlinBranch(o, k))
  {
  }

  /** Lines 124-129: the model and api packages, each only when set. */
  function SetPackages(cg: State, o: Options): (r: State)
    ensures r.modelPackage == o.modelPackage.GetOr(cg.modelPackage)
    ensures r.apiPackage == o.apiPackage.GetOr(cg.apiPackage)
    ensures r == cg.(modelPackage := r.modelPackage,
                     apiPackage := r.apiPackage)
  {
    cg.(
      modelPackage := if o.modelPackage.Some? then o.modelPackage.value else cg.modelPackage,
      apiPackage := if o.apiPackage.Some? then o.apiPackage.value else cg.apiPackage
    )
  }

  /** Lines 132-137 and 156-161: the invoker package and the artifact id, each only when set. */
  function SetProject(cg: State, o: Options): (r: State)
    ensures r.invokerPackage == o.invokerPackage.GetOr(cg.invokerPackage)
    ensures r.artifactId == o.artifactId.GetOr(cg.artifactId)
    ensures r == cg.(invokerPackage := r.invokerPackage,
                     artifactId := r.artifactId)
  {
    cg.(
      invokerPackage := if o.invokerPackage.Some? then o.invokerPackage.value else cg.invokerPackage,
      artifactId := if o.artifactId.Some? then o.artifactId.value else cg.artifactId
    )
  }

  /** Lines 138-143 and 162-167: the mapping lists, when set, are appended to
      what the codegen already holds. */
  function AddMappings(cg: State, o: Options): (r: State)
    ensures r.parameterMappings == cg.parameterMappings + o.parameterMappings.GetOr([])
    ensures r.responseBodyMappings == cg.responseBodyMappings + o.responseBodyMappings.GetOr([])
    ensures r == cg.(parameterMappings := r.parameterMappings, responseBodyMappings := r.responseBodyMappings)
  {
    cg.(
      parameterMappings := cg.parameterMappings + (if o.parameterMappings.Some? then o.parameterMappings.value else []),
      responseBodyMappings := cg.responseBodyMappings + (if o.responseBodyMappings.Some? then o.responseBodyMappings.value else [])
    )
  }

  /** Lines 144-148 and 168-171: the flags; `useOptional` only on the Java branch. */
  function SetFlags(cg: State, o: Options, java: bool): (r: State)
    ensures r.reactive == o.reactive && r.useBeanValidation == o.beanValidation
    ensures r.generateHttpResponseAlways == o.generateHttpResponseAlways
    ensures r.generateHttpResponseWhereRequired == o.generateHttpResponseWhereRequired
    ensures r.useOptional == if java then o.optional else cg.useOptional
    ensures r == cg.(reactive := r.reactive,
                     useBeanValidation := r.useBeanValidation,
                     generateHttpResponseAlways := r.generateHttpResponseAlways,
                     generateHttpResponseWhereRequired := r.generateHttpResponseWhereRequired,
                     useOptional := r.useOptional)
  {
    cg.(
      reactive := o.reactive,
      generateHttpResponseAlways := o.generateHttpResponseAlways,
      generateHttpResponseWhereRequired := o.generateHttpResponseWhereRequired,
      useOptional := if java then o.optional else cg.useOptional,
      useBeanValidation := o.beanValidation
    )
  }

  /** Lines 149-151 and 172-174: the three enum-valued settings by name; a null
      one throws `NullPointerException` when it is dereferenced. */
  function SetLibraries(cg: State, o: Options): (r: Result<State, string>)
    ensures r.Success? <==> EnumsSet(o)
    ensures r.Failure? ==> r.error == "NullPointerException"
    ensures r.Success? ==>
      && r.value.testTool == TestToolName(o.testFramework.value)
      && r.value.serializationLibrary == LibraryName(o.serializationLibraryKind.value)
      && r.value.dateTimeLibrary == FormatName(o.dateTimeFormat.value)
      && r.value == cg.(testTool := r.value.testTool, serializationLibrary := r.value.serializationLibrary,
                        dateTimeLibrary := r.value.dateTimeLibrary)
  {
    if o.testFramework.None? || o.serializationLibraryKind.None? || o.dateTimeFormat.None? then
      Failure("NullPointerException")
    else
      Success(cg.(
        testTool := TestToolName(o.testFramework.value),
        serializationLibrary := LibraryName(o.serializationLibraryKind.value),
        dateTimeLibrary := FormatName(o.dateTimeFormat.value)
      ))
  }

  /** Lines 132-151 and 156-174: what the two language branches share, with
      `useOptional` only when `java` holds. */
  function Common(cg: State, o: Options, java: bool): (r: Result<State, string>)
    ensures r.Success? <==> EnumsSet(o)
    ensures r.Success? ==> SameShape(cg, r.value) && r.value.processed == cg.processed
  {
    SetLibraries(SetFlags(AddMappings(SetProject(cg, o), o), o, java), o)
  }

  /** What configuration never changes: the codegen's class, its output folder
      and the timestamp switch. */
  predicate SameShape(cg: State, r: State) {
    r.kind == cg.kind && r.outputFolder == cg.outputFolder && r.hideGenerationTimestamp == cg.hideGenerationTimestamp
  }

  /** Lines 130-153: the Java branch, then the Java server and client configurers. */
  function ConfigureJava(ep: EntryPoint, cg: State, o: Options): (r: Result<State, string>)
    ensures r.Success? <==> EnumsSet(o)
    ensures r.Success? ==> SameShape(cg, r.value) && r.value.processed == cg.processed
  {
    match Common(cg, o, true)
    case Failure(e) => Failure(e)
    case Success(common) =>
      Success(ConfigureJavaClientOptions(ConfigureJavaServerOptions(common, ep.javaServerOptions), ep.javaClientOptions))
  }

  /** Lines 154-176: the Kotlin branch, then the Kotlin server and client configurers. */
  function ConfigureKotlin(ep: EntryPoint, cg: State, o: Options): (r: Result<State, string>)
    ensures r.Success? <==> EnumsSet(o)
    ensures r.Success? ==> SameShape(cg, r.value) && r.value.processed == cg.processed
  {
    match Common(cg, o, false)
    case Failure(e) => Failure(e)
    case Success(common) =>
      Success(ConfigureKotlinClientOptions(ConfigureKotlinServerOptions(common, ep.kotlinServerOptions), ep.kotlinClientOptions))
  }

  /** Lines 130-177: the branch for the codegen's language, if any. */
  function ConfigureLanguage(ep: EntryPoint, cg: State, o: Options): (r: Result<State, string>)
    ensures r.Success? ==> SameShape(cg, r.value) && r.value.processed == cg.processed
  {
    if JavaBranch(o, cg.kind) then ConfigureJava(ep, cg, o)
    else if KotlinBranch(o, cg.kind) then ConfigureKotlin(ep, cg, o)
    else Success(cg)
  }

  /** `codeGenerator.processOpts()`: the Kotlin client's is modelled; the other
      codegens' are not, and only count the call. */
  function ProcessOpts(cg: State): (r: State)
    ensures r.processed == cg.processed + 1
    ensures r == cg.(additionalProperties := r.additionalProperties, client := r.client,
                     supportingFiles := r.supportingFiles, apiTemplateFiles := r.apiTemplateFiles,
                     apiTestTemplateFiles := r.apiTestTemplateFiles, apiDocTemplateFiles := r.apiDocTemplateFiles,
                     processed := r.processed)
  {
    if cg.kind == KotlinClient then KotlinClient.ProcessOpts(cg) else cg.(processed := cg.processed + 1)
  }

  /** `configureOptions`: nothing at all without options; otherwise packages,
      the language branch, then exactly one `processOpts`. */
  function ConfigureOptions(ep: EntryPoint, cg: State): (r: Result<State, string>)
    ensures ep.options.None? ==> r == Success(cg)
    ensures ep.options.Some? && r.Success? ==> r.value.processed == cg.processed + 1
    ensures r.Success? ==> SameShape(cg, r.value)
  {
    match ep.options
    case None => Success(cg)
    case Some(o) =>
      match ConfigureLanguage(ep, SetPackages(cg, o), o)
      case Failure(e) => Failure(e)
      case Success(configured) => Success(ProcessOpts(configured))
  }

  // ---------------------------------------------------------------------------
  // configureOptions: properties
  // ---------------------------------------------------------------------------

  /** The common settings as the source promises them: packages and project
      coordinates only when set, mappings appended, the flags and the three
      enum settings by name, `useOptional` only for Java. */
  predicate CommonSettingsApplied(cg: State, o: Options, java: bool, r: State)
    requires EnumsSet(o)
  {
    && r.invokerPackage == o.invokerPackage.GetOr(cg.invokerPackage)
    && r.artifactId == o.artifactId.GetOr(cg.artifactId)
    && r.parameterMappings == cg.parameterMappings + o.parameterMappings.GetOr([])
    && r.responseBodyMappings == cg.responseBodyMappings + o.responseBodyMappings.GetOr([])
    && r.reactive == o.reactive
    && r.generateHttpResponseAlways == o.generateHttpResponseAlways
    && r.generateHttpResponseWhereRequired == o.generateHttpResponseWhereRequired
    && r.useBeanValidation == o.beanValidation
    && r.useOptional == (if java then o.optional else cg.useOptional)
    && r.testTool == TestToolName(o.testFramework.value)
    && r.serializationLibrary == LibraryName(o.serializationLibraryKind.value)
    && r.dateTimeLibrary == FormatName(o.dateTimeFormat.value)
  }

  /** The common settings, none of which any of the four configurers or any
      `processOpts` touches, as they were before configuration. */
  predicate CommonSettingsKept(cg: State, r: State) {
    && r.invokerPackage == cg.invokerPackage && r.artifactId == cg.artifactId
    && r.parameterMappings == cg.parameterMappings && r.responseBodyMappings == cg.responseBodyMappings
    && r.reactive == cg.reactive
    && r.generateHttpResponseAlways == cg.generateHttpResponseAlways
    && r.generateHttpResponseWhereRequired == cg.generateHttpResponseWhereRequired
    && r.useBeanValidation == cg.useBeanValidation && r.useOptional == cg.useOptional
    && r.testTool == cg.testTool && r.serializationLibrary == cg.serializationLibrary
    && r.dateTimeLibrary == cg.dateTimeLibrary
  }

  lemma CommonApplies(cg: State, o: Options, java: bool)
    requires EnumsSet(o)
    ensures Common(cg, o, java).Success? && CommonSettingsApplied(cg, o, java, Common(cg, o, java).value)
  {
  }

  /** The server and client configurers leave the common settings alone. */
  lemma ConfigurersKeepCommon(ep: EntryPoint, cg: State)
    ensures CommonSettingsKept(cg, ConfigureJavaClientOptions(ConfigureJavaServerOptions(cg, ep.javaServerOptions), ep.javaClientOptions))
    ensures CommonSettingsKept(cg, ConfigureKotlinClientOptions(ConfigureKotlinServerOptions(cg, ep.kotlinServerOptions), ep.kotlinClientOptions))
  {
  }

  /** No `processOpts` touches the common settings or the packages. */
  lemma ProcessOptsKeepsCommon(cg: State)
    ensures CommonSettingsKept(cg, ProcessOpts(cg))
    ensures ProcessOpts(cg).modelPackage == cg.modelPackage && ProcessOpts(cg).apiPackage == cg.apiPackage
  {
  }

  /** Lines 120-178, when a language branch is taken: the packages only when set,
      every common setting as given, `useOptional` only on the Java branch, and
      none of it undone by the configurers or by `processOpts`. */
  lemma BranchSettings(ep: EntryPoint, cg: State)
    requires ep.options.Some? && EnumsSet(ep.options.value)
    requires JavaBranch(ep.options.value, cg.kind) || KotlinBranch(ep.options.value, cg.kind)
    ensures var o := ep.options.value; var r := ConfigureOptions(ep, cg);
      && r.Success?
      && r.value.modelPackage == o.modelPackage.GetOr(cg.modelPackage)
      && r.value.apiPackage == o.apiPackage.GetOr(cg.apiPackage)
      && CommonSettingsApplied(cg, o, JavaBranch(o, cg.kind), r.value)
  {
    var o := ep.options.value;
    var java := JavaBranch(o, cg.kind);
    var p := SetPackages(cg, o);
    CommonApplies(p, o, java);
    var c := Common(p, o, java).value;
    ConfigurersKeepCommon(ep, c);
    var configured := ConfigureLanguage(ep, p, o).value;
    ProcessOptsKeepsCommon(configured);
  }

  /** Lines 130, 154 and 178: when no branch is taken (a Kotlin codegen under
      the Java language or the reverse) the packages are applied, the common
      settings are kept, the enum settings are not even read, and `processOpts`
      still runs once. */
  lemma NoBranchSettings(ep: EntryPoint, cg: State)
    requires ep.options.Some?
    requires !JavaBranch(ep.options.value, cg.kind) && !KotlinBranch(ep.options.value, cg.kind)
    ensures var o := ep.options.value; var r := ConfigureOptions(ep, cg);
      && r.Success?
      && r.value.modelPackage == o.modelPackage.GetOr(cg.modelPackage)
      && r.value.apiPackage == o.apiPackage.GetOr(cg.apiPackage)
      && CommonSettingsKept(cg, r.value)
      && r.value.processed == cg.processed + 1
  {
    ProcessOptsKeepsCommon(SetPackages(cg, ep.options.value));
  }

  /** Lines 149-151 and 172-174: configuration fails exactly when a branch is
      taken and one of the enum settings is null. */
  lemma ConfigureOptionsFails(ep: EntryPoint, cg: State)
    requires ep.options.Some?
    ensures var o := ep.options.value;
      ConfigureOptions(ep, cg).Failure? <==> (JavaBranch(o, cg.kind) || KotlinBranch(o, cg.kind)) && !EnumsSet(o)
  {
  }

  /** The entry point with only the option record that matches `k` kept. */
  function Relevant(ep: EntryPoint, k: Kind): EntryPoint {
    ep.(
      javaServerOptions := if k == JavaServer then ep.javaServerOptions else None,
      javaClientOptions := if k == JavaClient then ep.javaClientOptions else None,
      kotlinServerOptions := if k == KotlinServer then ep.kotlinServerOptions else None,
      kotlinClientOptions := if k == KotlinClient then ep.kotlinClientOptions else None
    )
  }

  /** Lines 182, 198, 220 and 236: an option record left over from an earlier
      `forX` call on the same builder has no effect on another kind of codegen. */
  lemma StaleRecordsIgnored(ep: EntryPoint, cg: State)
    ensures ConfigureOptions(ep, cg) == ConfigureOptions(Relevant(ep, cg.kind), cg)
  {
    if ep.options.Some? {
      var o := ep.options.value;
      var p := SetPackages(cg, o);
      assert p.kind == cg.kind;
      if JavaBranch(o, p.kind) {
        JavaStaleRecordsIgnored(ep, p, o);
      } else if KotlinBranch(o, p.kind) {
        KotlinStaleRecordsIgnored(ep, p, o);
      }
    }
  }

  lemma JavaStaleRecordsIgnored(ep: EntryPoint, cg: State, o: Options)
    ensures ConfigureJava(ep, cg, o) == ConfigureJava(Relevant(ep, cg.kind), cg, o)
  {
    match Common(cg, o, true)
    case Failure(_) =>
    case Success(common) =>
      assert common.kind == cg.kind;
  }

  lemma KotlinStaleRecordsIgnored(ep: EntryPoint, cg: State, o: Options)
    ensures ConfigureKotlin(ep, cg, o) == ConfigureKotlin(Relevant(ep, cg.kind), cg, o)
  {
    match Common(cg, o, false)
    case Failure(_) =>
    case Success(common) =>
      assert common.kind == cg.kind;
  }

  // ---------------------------------------------------------------------------
  // generate
  // ---------------------------------------------------------------------------

  /** Lines 72-82 and 92-99: the output directory, when there is one, becomes the
      codegen's output folder in canonical form (a failing lookup is rethrown as a
      `RuntimeException`); then generation timestamps are switched off, which both
      codegen families support. Resolving a canonical path is file-system work
      and is a parameter. */
  function Prepare(ep: EntryPoint, canonicalPath: string -> Result<string, string>): (r: Result<State, string>)
    ensures r.Failure? <==> ep.outputDirectory.Some? && canonicalPath(ep.outputDirectory.value).Failure?
    ensures r.Failure? ==> r.error == "RuntimeException"
    ensures r.Success? ==>
      && r.value.hideGenerationTimestamp
      && r.value.outputFolder ==
           (if ep.outputDirectory.Some? then canonicalPath(ep.outputDirectory.value).value
            else ep.codeGenerator.outputFolder)
      && r.value == ep.codeGenerator.(outputFolder := r.value.outputFolder,
                                      hideGenerationTimestamp := r.value.hideGenerationTimestamp)
  {
    if ep.outputDirectory.None? then
      Success(ep.codeGenerator.(hideGenerationTimestamp := true))
    else
      match canonicalPath(ep.outputDirectory.value)
      case Failure(_) => Failure("RuntimeException")
      case Success(path) => Success(ep.codeGenerator.(outputFolder := path, hideGenerationTimestamp := true))
  }

  /** The generator-property defaults `generate` installs: every kind's property
      is present, and it is "true" exactly for the requested kinds. */
  predicate FlagsFor(outputs: set<OutputKind>, flags: map<string, string>) {
    && (forall k :: GeneratorProperty(k) in flags && flags[GeneratorProperty(k)] == (if k in outputs then "true" else "false"))
    && (forall p :: p in flags ==> exists k :: p == GeneratorProperty(k))
  }

  /** No other kind shares `k`'s generator property. */
  lemma PropertyInjective(k: OutputKind)
    ensures forall other :: GeneratorProperty(other) == GeneratorProperty(k) ==> other == k
  {
    forall other | other != k
      ensures GeneratorProperty(other) != GeneratorProperty(k)
    {
      TokensDistinct(other, k);
    }
  }

  /** Lines 110-112: every kind's property set to "false". */
  method DefaultFlags() returns (flags: map<string, string>)
    ensures forall k :: GeneratorProperty(k) in flags && flags[GeneratorProperty(k)] == "false"
    ensures forall p :: p in flags ==> exists k :: p == GeneratorProperty(k)
  {
    flags := map[];
    var i := 0;
    while i < |AllKinds|
      invariant 0 <= i <= |AllKinds|
      invariant forall j :: 0 <= j < i ==> GeneratorProperty(AllKinds[j]) in flags && flags[GeneratorProperty(AllKinds[j])] == "false"
      invariant forall p :: p in flags ==> exists k :: p == GeneratorProperty(k)
    {
      flags := flags[GeneratorProperty(AllKinds[i]) := "false"];
      i := i + 1;
    }
    forall k
      ensures GeneratorProperty(k) in flags && flags[GeneratorProperty(k)] == "false"
    {
      AllKindsComplete(k);
    }
  }

  /** Lines 110-115: first every kind's property is set to "false", then each
      requested kind's to "true"; the enum set is iterated in no particular order. */
  method OutputFlags(outputs: set<OutputKind>) returns (flags: map<string, string>)
    ensures FlagsFor(outputs, flags)
  {
    flags := DefaultFlags();
    ghost var keys := flags.Keys;
    var remaining := outputs;
    while remaining != {}
      invariant remaining <= outputs
      invariant flags.Keys == keys
      invariant forall k :: flags[GeneratorProperty(k)] == (if k in outputs && k !in remaining then "true" else "false")
      decreases |remaining|
    {
      var k :| k in remaining;
      PropertyInjective(k);
      flags := flags[GeneratorProperty(k) := "true"];
      remaining := remaining - {k};
    }
  }

  /** What `generate` hands to the framework's generator: the configured codegen
      and the generator-property defaults. */
  datatype Generation = Generation(codegen: State, flags: map<string, string>)

  /** Lines 87-118 without reading the definition and running the generator:
      prepare the codegen, configure it, then compute the flags. */
  method Generate(ep: EntryPoint, canonicalPath: string -> Result<string, string>) returns (r: Result<Generation, string>)
    ensures r.Success? <==> Prepare(ep, canonicalPath).Success? && ConfigureOptions(ep, Prepare(ep, canonicalPath).value).Success?
    ensures r.Success? ==> FlagsFor(ep.outputs, r.value.flags)
    ensures r.Success? ==> r.value.codegen == ConfigureOptions(ep, Prepare(ep, canonicalPath).value).value
    ensures r.Success? ==>
      && r.value.codegen.hideGenerationTimestamp
      && r.value.codegen.kind == ep.codeGenerator.kind
      && r.value.codegen.processed == ep.codeGenerator.processed + (if ep.options.Some? then 1 else 0)
      && r.value.codegen.outputFolder ==
           (if ep.outputDirectory.Some? then canonicalPath(ep.outputDirectory.value).value
            else ep.codeGenerator.outputFolder)
  {
    var prepared := Prepare(ep, canonicalPath);
    if prepared.Failure? {
      return Failure(prepared.error);
    }
    var configured := ConfigureOptions(ep, prepared.value);
    if configured.Failure? {
      return Failure(configured.error);
    }
    var flags := OutputFlags(ep.outputs);
    r := Success(Generation(configured.value, flags));
  }
}
