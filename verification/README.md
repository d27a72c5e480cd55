# Micronaut OpenAPI generator: entry point, Kotlin client codegen, test-suite driver

This project models, in Dafny, how the Micronaut OpenAPI generator is
configured before any code is generated:

- **The entry point** (`MicronautCodeGeneratorEntryPoint`). Its fluent
  builder collects four things: the definition file, the output directory, the
  output kinds and the language-independent options. The `forX` calls pick
  one of four codegens (Java or Kotlin, server or client). `build` validates
  what was collected. `generate` then:
  - sets the output folder and switches generation timestamps off;
  - pushes the options into the codegen (`configureOptions` and the four
    `configure*Options`);
  - computes the generator-property flags, one per output kind.
- **`OutputKind.of`**, which maps a name or a generator property back to its kind.
- **The options record and `DefaultOptionsBuilder`**, modelled as the sequence of
  setter calls made on a fresh builder.
- **The Kotlin client codegen** (`KotlinMicronautClientCodegen`):
  - what its constructor adds to a fresh codegen;
  - what `processOpts` reads from the loosely typed property bag and writes
    back into it, which supporting files it registers, and which templates it
    installs;
  - its setters;
  - the `ClientOptions` record with its builder.
- **The test-suite driver's parser** (`GeneratorMain`). It reads the printed
  form of a list of maps (`[{k=v, k=v}, {…}]`) and turns each map into a
  parameter mapping or a response-body mapping.

The modules follow the program:

| module | file | what it holds |
|---|---|---|
| `Results` | `results.dfy` | `Option` for Java's `null`, and `Result` for a thrown exception, named by its class |
| `Strings` | `strings.dfy` | `indexOf`, `replace`, `trim`, and the splitting regex `\s*(;\|\r?\n)\s*` |
| `PropertyBag` | `property_bag.dfy` | the `additionalProperties` map, `convertPropertyToBoolean` and `writePropertyBack` |
| `OutputKinds` | `output_kinds.dfy` | the output-kind enum and `of` |
| `Mappings` | `mappings.dfy` | the parameter-mapping and response-body-mapping records |
| `Codegen` | `codegen.dfy` | one record for the state of any of the four codegens |
| `GeneratorOptions` | `options.dfy` | `Options` and its builder |
| `KotlinClient` | `kotlin_client.dfy` | the Kotlin client codegen |
| `CodeGeneratorEntryPoint` | `entry_point.dfy` | the builder, `build`, `configureOptions` and `generate` |
| `GeneratorMain` | `generator_main.dfy` | the driver's parser |

Three modelling rules hold everywhere:

- A Java `null` is `None`.
- An exception is a `Failure` carrying the exception's class name, or its
  message when the source gives one.
- A builder is the list of calls made on it, so "the last write wins" and "an
  untouched builder gives the defaults" are lemmas.

The model keeps two behaviours of the code that look unintended:

- **Self-assigned client settings.** The Java and Kotlin client configurers
  assign the codegen's client id, authorization filter pattern and base-path
  separator from the codegen's own fields, not from the option record. Those
  three settings therefore never change during configuration. The model keeps
  this (`CodeGeneratorEntryPoint.ClientConfigurersKeepSelfAssigned`).
- **Leftover option records.** Nothing stops a builder from holding option
  records for several codegen kinds after several `forX` calls. The model
  keeps all of them, and proves that only the record matching the chosen
  codegen has any effect (`CodeGeneratorEntryPoint.StaleRecordsIgnored`).

## Model

Functions that only compute have no row of their own. The lemma that states
their behaviour has the row instead:

- `KotlinClient.Derive`: the `KotlinClient.Derive*` lemmas.
- `KotlinClient.ConfigureAuthorization`: `KotlinClient.DeriveAuthorization`.
- `KotlinClient.AnnotationsOverride`: `KotlinClient.DeriveAnnotations`.
- `Strings.SplitAnnotations`: `Strings.SplitAnnotationsJoin`, `Strings.SplitAnnotationsClean` and `Strings.SplitAnnotationsSingle`.
- `GeneratorMain.ParseGroups`: `GeneratorMain.ParseGroupsText`.
- `GeneratorOptions.Build`: `GeneratorOptions.BuildLastWriteWins`.
- `KotlinClient.Build`: `KotlinClient.BuildLastWriteWins`.
- `CodeGeneratorEntryPoint.Run`: `CodeGeneratorEntryPoint.OutputsAccumulate`.

| member | source | states |
|---|---|---|
| OutputKinds.FindKind | openapi-generator/src/main/java/io/micronaut/openapi/generator/MicronautCodeGeneratorEntryPoint.java:287-291 | the kind found is in the list searched and matches the name by `name()` or by generator property; when none is found, no kind of the list matches |
| OutputKinds.Of | openapi-generator/src/main/java/io/micronaut/openapi/generator/MicronautCodeGeneratorEntryPoint.java:286-293 | succeeds exactly when some kind matches the name; the kind returned matches it; otherwise `IllegalArgumentException` with the message "Unknown output kind '<name>'" |
| OutputKinds.OfRoundTrip | openapi-generator/src/main/java/io/micronaut/openapi/generator/MicronautCodeGeneratorEntryPoint.java:269-293 | every kind is found again from its constant name and from its generator property |
| OutputKinds.OfIsBijective | openapi-generator/src/main/java/io/micronaut/openapi/generator/MicronautCodeGeneratorEntryPoint.java:269-293 | `of` yields kind k exactly for k's constant name and k's generator property, and for no other string |
| OutputKinds.TokensDistinct | openapi-generator/src/main/java/io/micronaut/openapi/generator/MicronautCodeGeneratorEntryPoint.java:269-276 | no two kinds share a constant name or a generator property, and no kind's name is another kind's property |
| GeneratorOptions.TestToolName | openapi-generator/src/main/java/io/micronaut/openapi/generator/MicronautCodeGeneratorEntryPoint.java:525-535 | JUnit 5 is the only framework mapped to the "junit" test tool, and Spock the only one mapped to "spock" |
| GeneratorOptions.Set | openapi-generator/src/main/java/io/micronaut/openapi/generator/MicronautCodeGeneratorEntryPoint.java:425-513 | a setter call makes its field read back exactly its argument |
| GeneratorOptions.SetKeepsOtherFields | openapi-generator/src/main/java/io/micronaut/openapi/generator/MicronautCodeGeneratorEntryPoint.java:425-513 | a setter call leaves every other field of the options as it was |
| GeneratorOptions.BuildLastWriteWins | openapi-generator/src/main/java/io/micronaut/openapi/generator/MicronautCodeGeneratorEntryPoint.java:407-517 | after any sequence of setter calls, each field of the built options holds the argument of the last call that set it, or the builder's default when no call did |
| GeneratorOptions.BuildIgnoresOtherSetters | openapi-generator/src/main/java/io/micronaut/openapi/generator/MicronautCodeGeneratorEntryPoint.java:425-517 | calls that set other fields do not change a field's built value |
| GeneratorOptions.UntouchedBuilder | openapi-generator/src/main/java/io/micronaut/openapi/generator/MicronautCodeGeneratorEntryPoint.java:409-423 | an untouched builder gives bean validation, reactive and HTTP-response-where-required on; optional and HTTP-response-always off; JUnit 5, Micronaut Serde Jackson, zoned date-times and Java; every package, the artifact id and both mapping lists null |
| PropertyBag.WriteBack | openapi-generator/src/main/java/io/micronaut/openapi/generator/KotlinMicronautClientCodegen.java:95-151 | writing a property makes it read back as the value written, adds only its key, and leaves every other key's value unchanged |
| PropertyBag.ConvertToBoolean | openapi-generator/src/main/java/io/micronaut/openapi/generator/KotlinMicronautClientCodegen.java:92-94 | only a Boolean true or a four-letter string can read as true; Boolean true, "true" and "TRUE" do |
| Mappings.LocationValueOf | test-suite-generator-util/src/main/java/io/micronaut/openapi/testsuite/GeneratorMain.java:123 | a location is found exactly for a location's constant name, and the location found has that name |
| Strings.ReplaceChar | openapi-generator/src/main/java/io/micronaut/openapi/generator/KotlinMicronautClientCodegen.java:103 | the result has the input's length, each occurrence of the replaced character becomes the replacement, and every other character stays |
| Strings.ReplaceCharRemoves | openapi-generator/src/main/java/io/micronaut/openapi/generator/KotlinMicronautClientCodegen.java:103 | after replacing '.' by '/', no '.' remains |
| Strings.Trim | openapi-generator/src/main/java/io/micronaut/openapi/generator/KotlinMicronautClientCodegen.java:133 | the result is no longer than the input, neither starts nor ends with a trimmable character, and a string without trimmable characters is left as is |
| Strings.SplitAnnotationsClean | openapi-generator/src/main/java/io/micronaut/openapi/generator/KotlinMicronautClientCodegen.java:133 | no annotation that `SplitAnnotations` produces contains ';' or a line break, and none starts or ends with whitespace |
| Strings.SplitAnnotationsSingle | openapi-generator/src/main/java/io/micronaut/openapi/generator/KotlinMicronautClientCodegen.java:133 | a value without ';' or line breaks gives exactly one annotation: the trimmed value |
| Strings.SplitAnnotationsJoin | openapi-generator/src/main/java/io/micronaut/openapi/generator/KotlinMicronautClientCodegen.java:133 | annotations that are not empty, hold no ';' or line break, and have no whitespace at either end, written one after another with ";" or "; " between them, are split back into exactly those annotations, in order |
| KotlinClient.Construct | openapi-generator/src/main/java/io/micronaut/openapi/generator/KotlinMicronautClientCodegen.java:42-67 | the codegen becomes a Kotlin client with the property "client" set to "true"; "file" maps to `ByteArray` and "responseFile" to `InputStream`; `InputStream` is imported from `java.io`; the client's own fields start at their declared values: authorization off, no annotations, no filter pattern, no client id, separator "-"; every other type mapping and the supporting files are kept |
| KotlinClient.FreshClientDerive | openapi-generator/src/main/java/io/micronaut/openapi/generator/KotlinMicronautClientCodegen.java:42-151 | for a fresh Kotlin client whose bag holds none of the client's keys, the derivation turns authorization off, finds no pattern, annotations or client id, keeps the "-" separator, and publishes all of that with both markers false |
| KotlinClient.FreshClientProcessOpts | openapi-generator/src/main/java/io/micronaut/openapi/generator/KotlinMicronautClientCodegen.java:42-158 | `processOpts` on such a fresh client leaves it with authorization off and published as false, no pattern, annotations or client id, the "-" separator published, and only the two documentation files added to the supporting files |
| KotlinClient.InvokerFolder | openapi-generator/src/main/java/io/micronaut/openapi/generator/KotlinMicronautClientCodegen.java:103 | the invoker folder is the source folder, '/', then the package, with every '.' turned into '/': the length is kept, no '.' is left, and every other character is kept |
| KotlinClient.AuthFilesLayout | openapi-generator/src/main/java/io/micronaut/openapi/generator/KotlinMicronautClientCodegen.java:106-115 | the authorization bundle has seven overwritable files, and the second one is `AuthorizationBinder.kt` |
| KotlinClient.AuthFilesFolders | openapi-generator/src/main/java/io/micronaut/openapi/generator/KotlinMicronautClientCodegen.java:107-115 | the first four authorization files go to `<invoker>/auth`, and the last three to `<invoker>/auth/configuration` |
| KotlinClient.WrittenKeysDistinct | openapi-generator/src/main/java/io/micronaut/openapi/generator/KotlinMicronautClientCodegen.java:33-39 | the eight property keys `processOpts` writes are pairwise distinct, including the server's "useAuth" |
| KotlinClient.StringOverride | openapi-generator/src/main/java/io/micronaut/openapi/generator/KotlinMicronautClientCodegen.java:117-120 | a non-null property replaces the field with its string form; a missing or null property keeps the field |
| KotlinClient.WriteAuthMarkers | openapi-generator/src/main/java/io/micronaut/openapi/generator/KotlinMicronautClientCodegen.java:95-101 | the authorization flag is published, "useAuth" is set to true, both markers are set to false, and no other key changes |
| KotlinClient.WritePattern | openapi-generator/src/main/java/io/micronaut/openapi/generator/KotlinMicronautClientCodegen.java:121-124 | the pattern, possibly null, is written back; its marker turns true exactly when the pattern is known; no other key changes |
| KotlinClient.WriteClientId | openapi-generator/src/main/java/io/micronaut/openapi/generator/KotlinMicronautClientCodegen.java:142-145 | a known client id is published together with its marker, and nothing else changes; an unknown one leaves the bag untouched |
| KotlinClient.ClientFilesLayout | openapi-generator/src/main/java/io/micronaut/openapi/generator/KotlinMicronautClientCodegen.java:103-116 | the files registered earlier stay first; the seven authorization files follow only with authorization on; `README.md`, never overwritten, and `auth.md` in the API doc folder close the list |
| KotlinClient.ClientTemplates | openapi-generator/src/main/java/io/micronaut/openapi/generator/KotlinMicronautClientCodegen.java:153-167 | the API and API-doc templates are replaced by the client ones; the test template is installed exactly for the JUnit test tool; nothing else changes |
| KotlinClient.Install | openapi-generator/src/main/java/io/micronaut/openapi/generator/KotlinMicronautClientCodegen.java:88-168 | the five derived settings, the bag written back and the supporting files are installed; the processing count goes up by one; nothing outside those fields changes |
| KotlinClient.ProcessOpts | openapi-generator/src/main/java/io/micronaut/openapi/generator/KotlinMicronautClientCodegen.java:88-168 | `processOpts` changes only the client settings, the properties, the supporting files and the templates, and it counts one call |
| KotlinClient.DeriveAuthorization | openapi-generator/src/main/java/io/micronaut/openapi/generator/KotlinMicronautClientCodegen.java:92-101 | authorization comes from "configureAuth" when that key is present, even when its value is null, and from the field otherwise; it is published; "useAuth" is true; each marker is true exactly when its value is known |
| KotlinClient.ProcessOptsAuthorization | openapi-generator/src/main/java/io/micronaut/openapi/generator/KotlinMicronautClientCodegen.java:92-95 | after `processOpts`, the codegen's authorization setting is the one derived from the bag, and it is published under "configureAuth" |
| KotlinClient.ProcessOptsMarkers | openapi-generator/src/main/java/io/micronaut/openapi/generator/KotlinMicronautClientCodegen.java:98-101 | after `processOpts`, "useAuth" is true, the pattern marker holds exactly when authorization is on and a pattern is known, and the client-id marker holds exactly when an id is known |
| KotlinClient.DerivePattern | openapi-generator/src/main/java/io/micronaut/openapi/generator/KotlinMicronautClientCodegen.java:117-124 | the filter pattern is read from the bag only with authorization on, and is then written back as it ends up; with authorization off, the bag's pattern entry is left alone |
| KotlinClient.DeriveAnnotations | openapi-generator/src/main/java/io/micronaut/openapi/generator/KotlinMicronautClientCodegen.java:127-136 | a list property is taken as is, any other non-null value is split at ';' and line breaks, a null keeps the field, and the result is written back |
| KotlinClient.DeriveClientIdAndSeparator | openapi-generator/src/main/java/io/micronaut/openapi/generator/KotlinMicronautClientCodegen.java:138-151 | the client id and the separator come from the bag when it holds them; the separator is always written back; the id only when it is known |
| KotlinClient.DeriveKeys | openapi-generator/src/main/java/io/micronaut/openapi/generator/KotlinMicronautClientCodegen.java:95-151 | afterwards the bag holds its old keys, the six keys that are always written, the pattern key with authorization on, and the client-id key when an id is known |
| KotlinClient.DeriveKeepsOtherKeys | openapi-generator/src/main/java/io/micronaut/openapi/generator/KotlinMicronautClientCodegen.java:88-168 | no property outside the eight keys the codegen owns is touched |
| KotlinClient.ProcessOptsSettings | openapi-generator/src/main/java/io/micronaut/openapi/generator/KotlinMicronautClientCodegen.java:117-151 | after `processOpts`, the pattern, the annotations, the client id and the separator are each what the bag or the field supplied, each is published as it ended up, and other keys are untouched |
| KotlinClient.ProcessOptsFiles | openapi-generator/src/main/java/io/micronaut/openapi/generator/KotlinMicronautClientCodegen.java:103-167 | `processOpts` appends the authorization bundle exactly when authorization is on and always appends the two doc files; it replaces the templates, with a test template exactly for JUnit |
| KotlinClient.SecondDeriveSettings | openapi-generator/src/main/java/io/micronaut/openapi/generator/KotlinMicronautClientCodegen.java:88-151 | reading the bag again after `processOpts` derives the same five settings: every value written back reads back as itself |
| KotlinClient.SecondDeriveKeys | openapi-generator/src/main/java/io/micronaut/openapi/generator/KotlinMicronautClientCodegen.java:95-151 | a second `processOpts` adds no key to the bag |
| KotlinClient.ProcessOptsSettledSettings | openapi-generator/src/main/java/io/micronaut/openapi/generator/KotlinMicronautClientCodegen.java:88-151 | running `processOpts` twice leaves the client settings where the first run put them |
| KotlinClient.ProcessOptsSettledProperties | openapi-generator/src/main/java/io/micronaut/openapi/generator/KotlinMicronautClientCodegen.java:88-151 | running `processOpts` twice leaves the property bag where the first run put it |
| KotlinClient.Set | openapi-generator/src/main/java/io/micronaut/openapi/generator/KotlinMicronautClientCodegen.java:212-264 | a client setter makes its field read back exactly its argument and leaves every other field as it was |
| KotlinClient.BuildLastWriteWins | openapi-generator/src/main/java/io/micronaut/openapi/generator/KotlinMicronautClientCodegen.java:200-278 | each field of the built client options holds the argument of the last setter call for it, or the default when there was none |
| KotlinClient.UntouchedBuilder | openapi-generator/src/main/java/io/micronaut/openapi/generator/KotlinMicronautClientCodegen.java:202-210 | an untouched client builder gives the generated annotation on, every other flag off, and every reference null |
| CodeGeneratorEntryPoint.Apply | openapi-generator/src/main/java/io/micronaut/openapi/generator/MicronautCodeGeneratorEntryPoint.java:314-382 | `forCodeGenerator` stores the codegen it is given; each other `forX` stores the codegen its constructor produces, of its own kind, together with its own option record, and leaves the other records as they were; `withDefinitionFile`, `withOutputDirectory` and `withOptions` store their argument (the options as built), and `withOutputs` adds its kinds; none of these four touches the codegen, and every call leaves the fields it is not about unchanged |
| CodeGeneratorEntryPoint.OutputsAccumulate | openapi-generator/src/main/java/io/micronaut/openapi/generator/MicronautCodeGeneratorEntryPoint.java:371-374 | after any calls, the outputs are the initial set plus every kind any `withOutputs` call asked for: outputs are never removed |
| CodeGeneratorEntryPoint.Build | openapi-generator/src/main/java/io/micronaut/openapi/generator/MicronautCodeGeneratorEntryPoint.java:384-405 | building succeeds exactly when a definition file and a codegen are set and, if any output is enabled, an output directory too; each failure has its own message; a built entry point carries every builder field |
| CodeGeneratorEntryPoint.NoOutputsNeedNoDirectory | openapi-generator/src/main/java/io/micronaut/openapi/generator/MicronautCodeGeneratorEntryPoint.java:302-312 | with no output enabled, a missing output directory is accepted |
| CodeGeneratorEntryPoint.JavaServerFields | openapi-generator/src/main/java/io/micronaut/openapi/generator/MicronautCodeGeneratorEntryPoint.java:181-195 | the controller package is replaced only when given; every Java server option is copied; `ksp` is untouched |
| CodeGeneratorEntryPoint.KotlinServerFields | openapi-generator/src/main/java/io/micronaut/openapi/generator/MicronautCodeGeneratorEntryPoint.java:219-233 | the controller package is replaced only when given; every Kotlin server option is copied; `lombok` is untouched |
| CodeGeneratorEntryPoint.JavaClientFields | openapi-generator/src/main/java/io/micronaut/openapi/generator/MicronautCodeGeneratorEntryPoint.java:197-217 | the annotations are replaced only when given; the client id, filter pattern and separator stay as they were whatever the options hold; authorization, lombok, plural, flux and generated-annotation are copied |
| CodeGeneratorEntryPoint.KotlinClientFields | openapi-generator/src/main/java/io/micronaut/openapi/generator/MicronautCodeGeneratorEntryPoint.java:235-255 | the annotations are replaced only when given; the client id, filter pattern and separator stay as they were; authorization, ksp, plural, flux and generated-annotation are copied |
| CodeGeneratorEntryPoint.ConfigureJavaServerOptions | openapi-generator/src/main/java/io/micronaut/openapi/generator/MicronautCodeGeneratorEntryPoint.java:181-184 | only a Java server codegen with a record takes the Java server settings; nothing outside the server settings changes |
| CodeGeneratorEntryPoint.ConfigureJavaClientOptions | openapi-generator/src/main/java/io/micronaut/openapi/generator/MicronautCodeGeneratorEntryPoint.java:197-200 | only a Java client codegen with a record takes the Java client settings; nothing outside the client settings changes |
| CodeGeneratorEntryPoint.ConfigureKotlinServerOptions | openapi-generator/src/main/java/io/micronaut/openapi/generator/MicronautCodeGeneratorEntryPoint.java:219-222 | only a Kotlin server codegen with a record takes the Kotlin server settings; nothing outside the server settings changes |
| CodeGeneratorEntryPoint.ConfigureKotlinClientOptions | openapi-generator/src/main/java/io/micronaut/openapi/generator/MicronautCodeGeneratorEntryPoint.java:235-238 | only a Kotlin client codegen with a record takes the Kotlin client settings; nothing outside the client settings changes |
| CodeGeneratorEntryPoint.ClientConfigurersKeepSelfAssigned | openapi-generator/src/main/java/io/micronaut/openapi/generator/MicronautCodeGeneratorEntryPoint.java:202-210 | whatever the option records say, configuring a client never changes its client id, filter pattern or separator |
| CodeGeneratorEntryPoint.BranchesExclusive | openapi-generator/src/main/java/io/micronaut/openapi/generator/MicronautCodeGeneratorEntryPoint.java:130-154 | the Java and the Kotlin branch are never both taken |
| CodeGeneratorEntryPoint.SetPackages | openapi-generator/src/main/java/io/micronaut/openapi/generator/MicronautCodeGeneratorEntryPoint.java:124-129 | the model and API packages are replaced only when set, and nothing else changes |
| CodeGeneratorEntryPoint.SetProject | openapi-generator/src/main/java/io/micronaut/openapi/generator/MicronautCodeGeneratorEntryPoint.java:132-137 | the invoker package and the artifact id are replaced only when set, and nothing else changes |
| CodeGeneratorEntryPoint.AddMappings | openapi-generator/src/main/java/io/micronaut/openapi/generator/MicronautCodeGeneratorEntryPoint.java:138-143 | the mapping lists given are appended after the codegen's own mappings, and nothing else changes |
| CodeGeneratorEntryPoint.SetFlags | openapi-generator/src/main/java/io/micronaut/openapi/generator/MicronautCodeGeneratorEntryPoint.java:144-148 | the reactive, bean-validation and both HTTP-response flags are copied; `useOptional` only on the Java branch; nothing else changes |
| CodeGeneratorEntryPoint.SetLibraries | openapi-generator/src/main/java/io/micronaut/openapi/generator/MicronautCodeGeneratorEntryPoint.java:149-151 | fails with `NullPointerException` exactly when the test framework, the serialization library or the date-time format is null; otherwise sets the three by name and nothing else |
| CodeGeneratorEntryPoint.Common | openapi-generator/src/main/java/io/micronaut/openapi/generator/MicronautCodeGeneratorEntryPoint.java:132-151 | what both branches share fails exactly when an enum setting is null, and never changes the codegen's kind, output folder or timestamp switch |
| CodeGeneratorEntryPoint.ConfigureJava | openapi-generator/src/main/java/io/micronaut/openapi/generator/MicronautCodeGeneratorEntryPoint.java:130-153 | the Java branch fails exactly when an enum setting is null, and keeps the codegen's kind, output folder and timestamp switch |
| CodeGeneratorEntryPoint.ConfigureKotlin | openapi-generator/src/main/java/io/micronaut/openapi/generator/MicronautCodeGeneratorEntryPoint.java:154-177 | the Kotlin branch fails exactly when an enum setting is null, and keeps the codegen's kind, output folder and timestamp switch |
| CodeGeneratorEntryPoint.ConfigureLanguage | openapi-generator/src/main/java/io/micronaut/openapi/generator/MicronautCodeGeneratorEntryPoint.java:130-177 | whichever branch is taken, a successful configuration keeps the codegen's kind, output folder and timestamp switch and does not run `processOpts` |
| CodeGeneratorEntryPoint.ProcessOpts | openapi-generator/src/main/java/io/micronaut/openapi/generator/MicronautCodeGeneratorEntryPoint.java:178 | `processOpts` runs exactly once per call and touches only the client settings, properties, supporting files and templates |
| CodeGeneratorEntryPoint.ConfigureOptions | openapi-generator/src/main/java/io/micronaut/openapi/generator/MicronautCodeGeneratorEntryPoint.java:120-179 | without options nothing changes at all; with options, success means exactly one `processOpts`; the codegen's kind, output folder and timestamp switch always survive |
| CodeGeneratorEntryPoint.CommonApplies | openapi-generator/src/main/java/io/micronaut/openapi/generator/MicronautCodeGeneratorEntryPoint.java:132-151 | with every enum setting present, the shared part succeeds and applies every common setting as given |
| CodeGeneratorEntryPoint.ConfigurersKeepCommon | openapi-generator/src/main/java/io/micronaut/openapi/generator/MicronautCodeGeneratorEntryPoint.java:181-255 | none of the four configurers undoes a common setting |
| CodeGeneratorEntryPoint.ProcessOptsKeepsCommon | openapi-generator/src/main/java/io/micronaut/openapi/generator/MicronautCodeGeneratorEntryPoint.java:178 | `processOpts` undoes neither a common setting nor a package |
| CodeGeneratorEntryPoint.BranchSettings | openapi-generator/src/main/java/io/micronaut/openapi/generator/MicronautCodeGeneratorEntryPoint.java:120-178 | when a language branch is taken and the enum settings are present, configuration succeeds with the packages, project settings, mappings, flags and library names as the options give them, `useOptional` only for Java |
| CodeGeneratorEntryPoint.NoBranchSettings | openapi-generator/src/main/java/io/micronaut/openapi/generator/MicronautCodeGeneratorEntryPoint.java:124-178 | when the language does not match the codegen family, configuration succeeds even with null enum settings; the packages are applied, the common settings are kept, and `processOpts` still runs once |
| CodeGeneratorEntryPoint.ConfigureOptionsFails | openapi-generator/src/main/java/io/micronaut/openapi/generator/MicronautCodeGeneratorEntryPoint.java:120-179 | configuration fails exactly when a language branch is taken and one of the three enum settings is null |
| CodeGeneratorEntryPoint.StaleRecordsIgnored | openapi-generator/src/main/java/io/micronaut/openapi/generator/MicronautCodeGeneratorEntryPoint.java:130-177 | option records for other codegen kinds have no effect: configuring gives the same result with them removed |
| CodeGeneratorEntryPoint.Prepare | openapi-generator/src/main/java/io/micronaut/openapi/generator/MicronautCodeGeneratorEntryPoint.java:72-99 | fails with `RuntimeException` exactly when an output directory is given and its canonical path cannot be resolved; otherwise the output folder is that canonical path (or unchanged without a directory), timestamps are hidden, and nothing else changes |
| CodeGeneratorEntryPoint.PropertyInjective | openapi-generator/src/main/java/io/micronaut/openapi/generator/MicronautCodeGeneratorEntryPoint.java:269-276 | no other kind shares a kind's generator property, so setting one flag never touches another |
| CodeGeneratorEntryPoint.DefaultFlags | openapi-generator/src/main/java/io/micronaut/openapi/generator/MicronautCodeGeneratorEntryPoint.java:110-112 | every kind's generator property is present and "false", and no other key is present |
| CodeGeneratorEntryPoint.OutputFlags | openapi-generator/src/main/java/io/micronaut/openapi/generator/MicronautCodeGeneratorEntryPoint.java:110-115 | every kind's generator property is present, "true" exactly for the requested kinds and "false" for the rest, and no other key is present |
| CodeGeneratorEntryPoint.Generate | openapi-generator/src/main/java/io/micronaut/openapi/generator/MicronautCodeGeneratorEntryPoint.java:87-118 | generation succeeds exactly when preparation and configuration do; then the codegen it returns is the configured one, the flags match the requested outputs, timestamps are hidden, the kind is kept, `processOpts` ran once when options were given, and the output folder is the canonical output directory |
| GeneratorMain.EntryAt | test-suite-generator-util/src/main/java/io/micronaut/openapi/testsuite/GeneratorMain.java:161-172 | a successful step of the entry walk always moves past its start, so the walk ends |
| GeneratorMain.ParseEntries | test-suite-generator-util/src/main/java/io/micronaut/openapi/testsuite/GeneratorMain.java:160-175 | the entry walk never moves backwards |
| GeneratorMain.ParseListOfMaps | test-suite-generator-util/src/main/java/io/micronaut/openapi/testsuite/GeneratorMain.java:139-185 | a blank string is the empty list; a single non-blank character fails with an index error |
| GeneratorMain.IndexOfAt | test-suite-generator-util/src/main/java/io/micronaut/openapi/testsuite/GeneratorMain.java:158-167 | `indexOf` from a position returns the first occurrence at or after it |
| GeneratorMain.EntryAtReads | test-suite-generator-util/src/main/java/io/micronaut/openapi/testsuite/GeneratorMain.java:161-172 | given where the '=' and the ending ',' or '}' are, one step reads exactly the name before the '=' and the value up to the ending, and continues just past it |
| GeneratorMain.ParseOneEntry | test-suite-generator-util/src/main/java/io/micronaut/openapi/testsuite/GeneratorMain.java:160-175 | one printed entry `name=value`, followed by a comma or the closing brace, is read back as its name and value |
| GeneratorMain.ParseEntriesStep | test-suite-generator-util/src/main/java/io/micronaut/openapi/testsuite/GeneratorMain.java:160-175 | after one entry is read, the walk continues from the next position with that entry put into the map |
| GeneratorMain.ParseEntriesText | test-suite-generator-util/src/main/java/io/micronaut/openapi/testsuite/GeneratorMain.java:160-175 | the printed entries of a map, up to its closing brace, are read back as the map they build when put in order, and the walk stops just past the brace |
| GeneratorMain.ParseGroupsStep | test-suite-generator-util/src/main/java/io/micronaut/openapi/testsuite/GeneratorMain.java:148-181 | one map read at a position adds that map to the list, and the walk continues after the separating comma |
| GeneratorMain.ParseGroupsEnd | test-suite-generator-util/src/main/java/io/micronaut/openapi/testsuite/GeneratorMain.java:148 | the walk stops at the closing bracket with the maps read so far |
| GeneratorMain.ParseGroupsText | test-suite-generator-util/src/main/java/io/micronaut/openapi/testsuite/GeneratorMain.java:148-181 | the printed maps, up to the closing bracket, are read back as the list of maps they stand for |
| GeneratorMain.RenderRoundTrip | test-suite-generator-util/src/main/java/io/micronaut/openapi/testsuite/GeneratorMain.java:139-185 | a list of non-empty maps printed as `List.toString` prints it, separated by "," or ", ", is read back as the same maps when no name holds '=' or '}' or starts with a space, and no value holds ',' or '}' |
| GeneratorMain.ToParameterMapping | test-suite-generator-util/src/main/java/io/micronaut/openapi/testsuite/GeneratorMain.java:121-126 | converting succeeds exactly when "location" is present and names a location; a missing location is a `NullPointerException`, an unknown one an `IllegalArgumentException`; on success the location is the one named |
| GeneratorMain.ToResponseBodyMapping | test-suite-generator-util/src/main/java/io/micronaut/openapi/testsuite/GeneratorMain.java:131-136 | each of the list-wrapper and validated flags is true exactly when its key holds the exact text "true" |
| GeneratorMain.ToParameterMappings | test-suite-generator-util/src/main/java/io/micronaut/openapi/testsuite/GeneratorMain.java:121-127 | the list converts exactly when every map does, and then holds each map's mapping in order; otherwise the error is that of the first map that fails |
| GeneratorMain.ParseParameterMappings | test-suite-generator-util/src/main/java/io/micronaut/openapi/testsuite/GeneratorMain.java:120-128 | fails exactly when the list does not parse (that failure is passed on) or some map has no "location" or one naming no location; such a failure is the error of the first map that fails (a `NullPointerException` or an `IllegalArgumentException`); otherwise there is one mapping per map, in order, with the named location, the map's name, mapped type and mapped name, and the validation flag set exactly when the map's "isValidated" is "true" |
| GeneratorMain.ParseResponseBodyMappings | test-suite-generator-util/src/main/java/io/micronaut/openapi/testsuite/GeneratorMain.java:130-137 | fails exactly when the list does not parse, with that failure; otherwise there is one response-body mapping per map, in order, holding the map's header name and body type, each flag set exactly when its entry is "true" |
| GeneratorMain.FoldAppend | test-suite-generator-util/src/main/java/io/micronaut/openapi/testsuite/GeneratorMain.java:174 | putting two runs of entries is putting the first run, then the second |
| GeneratorMain.ParameterMappingEntries | test-suite-generator-util/src/main/java/io/micronaut/openapi/testsuite/GeneratorMain.java:121-126 | the printed form of a parameter mapping carries each non-null field under the key the parser reads |
| GeneratorMain.ParameterMappingRoundTrip | test-suite-generator-util/src/main/java/io/micronaut/openapi/testsuite/GeneratorMain.java:121-126 | a parameter mapping written in its printed form converts back to itself |
| GeneratorMain.ResponseBodyMappingEntries | test-suite-generator-util/src/main/java/io/micronaut/openapi/testsuite/GeneratorMain.java:131-136 | the printed form of a response-body mapping carries each non-null field under the key the parser reads |
| GeneratorMain.ResponseBodyMappingRoundTrip | test-suite-generator-util/src/main/java/io/micronaut/openapi/testsuite/GeneratorMain.java:131-136 | a response-body mapping written in its printed form converts back to itself |
| GeneratorMain.ParameterMappingsRoundTrip | test-suite-generator-util/src/main/java/io/micronaut/openapi/testsuite/GeneratorMain.java:120-128 | a list of parameter mappings whose strings hold no ',' or '}', printed as a list of maps, is parsed back to the same list |
| GeneratorMain.ResponseBodyMappingsRoundTrip | test-suite-generator-util/src/main/java/io/micronaut/openapi/testsuite/GeneratorMain.java:130-137 | a list of response-body mappings whose strings hold no ',' or '}', printed as a list of maps, is parsed back to the same list |
| GeneratorMain.RepeatedNameLastWins | test-suite-generator-util/src/main/java/io/micronaut/openapi/testsuite/GeneratorMain.java:174 | a name repeated in one map keeps its last value |
| GeneratorMain.CommaInValueFails | test-suite-generator-util/src/main/java/io/micronaut/openapi/testsuite/GeneratorMain.java:164-172 | a value holding a comma is not read back: the text after the comma is taken as a name without '=', and the parse fails with an index error |

## Left out

- Reading the OpenAPI definition and running the framework's generator at the end of `generate`: this is file and network I/O in code outside this model. `generate` returns the configured codegen and the flag map instead.
- `generate` changes the codegen in place. A second call on the same entry point appends the parameter and response-body mappings again and runs `processOpts` again. The model treats each call as starting from the entry point's codegen as built, so these repeated effects are not modelled.
- The builder's output set is the same object as the built entry point's. A `withOutputs` call after `build()` therefore also enlarges the outputs of an entry point already built, and no check compares them. The model copies the set at `build()`, so this sharing is not modelled.
- Resolving a canonical path is file-system work, so it is a parameter of `Prepare` and `Generate`.
- The codegens' constructors, apart from the Kotlin client's own lines, belong to base classes outside this model. A `forX` call takes the state they leave behind as a parameter.
- `processOpts` of the Java client, the Java server and the Kotlin server codegens is not part of this model; for those, the model only counts the call. The Kotlin client's call to its superclass `processOpts` is left out for the same reason.
- Several constants live in classes outside this model and are taken as given: the output-kind generator properties ("models", "modelTests", …), the test-tool names "junit" and "spock", and "useAuth". So are the constants of three enums whose classes are not part of this model:
  - the parameter locations PATH, QUERY, HEADER, COOKIE and BODY. These are assumed, because `ParameterMapping.ParameterLocation` is not part of this model, and the list is unconfirmed. The enum may name FORM instead of PATH. Which location names `Mappings.LocationValueOf` accepts, and so which maps `GeneratorMain.ToParameterMapping` and `GeneratorMain.ParseParameterMappings` accept or reject with an `IllegalArgumentException`, depends directly on this list.
  - the serialization libraries MICRONAUT_SERDE_JACKSON and JACKSON. The source shows only the first.
  - the date-time formats OFFSET_DATETIME, ZONED_DATETIME and LOCAL_DATETIME. The source shows only ZONED_DATETIME.
- `writePropertyBack` is defined upstream. It is modelled as a plain `put` into the property bag.
- The CLI options registered by the constructor, the generator metadata, `getTag`, `getName`, `getHelp` and `isServer` only describe the codegen to tools. None of them takes part in configuration.
- The Kotlin client setters are not separate members: `configureKotlinClientOptions` is their only caller, so they are modelled as the field updates in `CodeGeneratorEntryPoint.KotlinClientFields`.
- `GeneratorMain.main` reads command-line arguments and starts a generation. It wires the builder together, and that wiring is what `CodeGeneratorEntryPoint` models.
- Java assertions are disabled by default, so the `assert` statements of `parseListOfMaps` are not evaluated. A malformed input fails only where an index or substring call throws.
- `HashMap`'s printing order is left out. The printed form used in the round-trip lemmas puts the entries in a fixed order of the caller's choice.
- GeneratorMain.ParseListOfMaps: its own contract states only the blank and one-character inputs. What it reads from a well-formed list is stated by `GeneratorMain.RenderRoundTrip`. Inputs not in printed form are modelled as the source walks them, but nothing is stated about them.
- GeneratorMain.EntryAt: the contract states only progress. What one step reads is stated by `GeneratorMain.EntryAtReads`.
- GeneratorMain.ParseEntries: the contract states only progress. What the walk reads is stated by `GeneratorMain.ParseEntriesText`.
- PropertyBag.ConvertToBoolean: the contract states the necessary form and the common true spellings, not every mixed-case spelling that `Boolean.parseBoolean` accepts.
- Strings.SplitAnnotationsClean: states only the shape of the pieces. Which pieces come out is stated by `Strings.SplitAnnotationsJoin`, and only for lists written with ";" or "; " between the annotations. Other spacing and line-break separators are modelled as the regular expression matches them, but no content is stated for them.
- Strings.Trim: the contract states the ends and the no-op case, not that the result is the exact middle slice.
- CodeGeneratorEntryPoint.Common: the contract states when it fails and what it keeps. The values it sets are stated by `CodeGeneratorEntryPoint.BranchSettings` and `CodeGeneratorEntryPoint.CommonApplies`.
- CodeGeneratorEntryPoint.ConfigureJava: the contract states when it fails and what it keeps. The values it sets are stated by `CodeGeneratorEntryPoint.BranchSettings` and `CodeGeneratorEntryPoint.CommonApplies`.
- CodeGeneratorEntryPoint.ConfigureKotlin: the contract states when it fails and what it keeps. The values it sets are stated by `CodeGeneratorEntryPoint.BranchSettings` and `CodeGeneratorEntryPoint.CommonApplies`.
- CodeGeneratorEntryPoint.ConfigureLanguage: the contract states only what it keeps. When it fails is stated by `CodeGeneratorEntryPoint.ConfigureOptionsFails`, and the values it sets by `CodeGeneratorEntryPoint.BranchSettings` and `CodeGeneratorEntryPoint.CommonApplies`.
