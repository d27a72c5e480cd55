/** The state of an upstream codegen instance, reduced to the fields the
    configuration pipeline reads or writes.

    The four concrete codegens (server or client, Java or Kotlin) share one
    record; `kind` plays the part of the runtime class that `instanceof`
    inspects. Server-only and client-only settings live in their own
    sub-records so that "nothing else changes" can be stated per group.
 */
module Codegen {
  import opened Results
  import opened PropertyBag
  import opened Mappings

  /** The concrete codegen class. */
  datatype Kind = JavaServer | JavaClient | KotlinServer | KotlinClient

  /** `instanceof AbstractMicronautJavaCodegen`. */
  predicate IsJava(k: Kind) {
    k == JavaServer || k == JavaClient
  }

  /** `instanceof AbstractMicronautKotlinCodegen`. */
  predicate IsKotlin(k: Kind) {
    k == KotlinServer || k == KotlinClient
  }

  /** The test-tool names the codegens understand. */
  const OptTestJunit: string := "junit"
  const OptTestSpock: string := "spock"

  /** The property a server codegen publishes when authentication is on. */
  const OptUseAuth: string := "useAuth"

  /** A file rendered once per generation from `templateFile` into `folder/destinationFilename`. */
  datatype SupportingFile = SupportingFile(
    templateFile: string,
    folder: string,
    destinationFilename: string,
    canOverwrite: bool
  )

  /** Settings only the server codegens have. */
  datatype ServerFields = ServerFields(
    controllerPackage: string,
    generateImplementationFiles: bool,
    generateOperationsToReturnNotImplemented: bool,
    generateControllerFromExamples: bool,
    useAuth: bool,
    lombok: bool,
    plural: bool,
    fluxForArrays: bool,
    generatedAnnotation: bool,
    ksp: bool
  )

  /** Settings only the client codegens have. */
  datatype ClientFields = ClientFields(
    additionalClientTypeAnnotations: Option<seq<string>>,
    authorizationFilterPattern: Option<string>,
    basePathSeparator: Option<string>,
    clientId: Option<string>,
    configureAuthorization: bool,
    lombok: bool,
    plural: bool,
    fluxForArrays: bool,
    generatedAnnotation: bool,
    ksp: bool
  )

  /** A codegen instance. `processed` counts the calls of `processOpts`. */
  datatype State = State(
    kind: Kind,
    outputFolder: string,
    hideGenerationTimestamp: bool,
    modelPackage: string,
    apiPackage: string,
    invokerPackage: string,
    artifactId: string,
    parameterMappings: seq<ParameterMapping>,
    responseBodyMappings: seq<ResponseBodyMapping>,
    reactive: bool,
    generateHttpResponseAlways: bool,
    generateHttpResponseWhereRequired: bool,
    useOptional: bool,
    useBeanValidation: bool,
    testTool: string,
    serializationLibrary: string,
    dateTimeLibrary: string,
    sourceFolder: string,
    packageName: string,
    apiDocPath: string,
    additionalProperties: Properties,
    supportingFiles: seq<SupportingFile>,
    typeMapping: map<string, string>,
    importMapping: map<string, string>,
    apiTemplateFiles: map<string, string>,
    apiTestTemplateFiles: map<string, string>,
    apiDocTemplateFiles: map<string, string>,
    server: ServerFields,
    client: ClientFields,
    processed: nat
  )
}
