/** The Kotlin client codegen: what its constructor puts into a fresh codegen,
    what `processOpts` derives from the property bag, and the immutable
    `ClientOptions` record with its fluent builder.
 */
module KotlinClient {
  import opened Results
  import opened Strings
  import opened PropertyBag
  import opened Codegen

  // Property keys.
  const OptConfigureAuth: string := "configureAuth"
  const OptConfigureAuthFilterPattern: string := "configureAuthFilterPattern"
  const OptConfigureClientId: string := "configureClientId"
  const AdditionalClientTypeAnnotationsKey: string := "additionalClientTypeAnnotations"
  const AuthorizationFilterPatternKey: string := "authorizationFilterPattern"
  const BasePathSeparatorKey: string := "basePathSeparator"
  const ClientIdKey: string := "clientId"

  /** The keys `processOpts` may write. */
  const WrittenKeys: set<string> := {
    OptConfigureAuth, OptUseAuth, OptConfigureAuthFilterPattern, OptConfigureClientId,
    AdditionalClientTypeAnnotationsKey, AuthorizationFilterPatternKey, BasePathSeparatorKey, ClientIdKey
  }

  // ---------------------------------------------------------------------------
  // Construction
  // ---------------------------------------------------------------------------

  /** The constructor, applied on top of what the unseen base-class
      constructors left in `upstream`. */
  function Construct(upstream: State): (r: State)
    ensures r.kind == KotlinClient
    ensures Get(r.additionalProperties, "client") == Str("true")
    ensures r.typeMapping.Keys == upstream.typeMapping.Keys + {"file", "responseFile"}
    ensures r.typeMapping["file"] == "ByteArray" && r.typeMapping["responseFile"] == "InputStream"
    ensures r.importMapping.Keys == upstream.importMapping.Keys + {"InputStream"}
    ensures r.importMapping["InputStream"] == "java.io.InputStream"
    ensures r.client.basePathSeparator == Some("-") && !r.client.configureAuthorization
    ensures r.client.additionalClientTypeAnnotations.None? && r.client.authorizationFilterPattern.None?
    ensures r.client.clientId.None?
    ensures forall k :: k in upstream.typeMapping && k != "file" && k != "responseFile" ==> r.typeMapping[k] == upstream.typeMapping[k]
    ensures r.supportingFiles == upstream.supportingFiles && r.processed == upstream.processed
  {
    upstream.(
      kind := KotlinClient,
      additionalProperties := upstream.additionalProperties["client" := Str("true")],
      typeMapping := upstream.typeMapping["file" := "ByteArray"]["responseFile" := "InputStream"],
      importMapping := upstream.importMapping["InputStream" := "java.io.InputStream"],
      client := upstream.client.(
        basePathSeparator := Some("-"),
        configureAuthorization := false,
        additionalClientTypeAnnotations := None,
        authorizationFilterPattern := None,
        clientId := None
      )
    )
  }

  /** What `processOpts` derives for a fresh Kotlin client whose bag holds
      none of the client's properties. */
  lemma FreshClientDerive(upstream: State)
    requires forall k :: k in WrittenKeys ==> k !in upstream.additionalProperties
    ensures var d := Derive(Construct(upstream));
      && !d.auth && d.pattern.None? && d.annotations.None? && d.clientId.None?
      && d.separator == Some("-")
      && Get(d.properties, OptConfigureAuth) == Bool(false)
      && Get(d.properties, OptConfigureAuthFilterPattern) == Bool(false)
      && Get(d.properties, OptConfigureClientId) == Bool(false)
      && Get(d.properties, BasePathSeparatorKey) == Str("-")
  {
    var cg := Construct(upstream);
    WrittenKeysDistinct();
    assert forall k :: k in WrittenKeys ==> Get(cg.additionalProperties, k) == Null;
    DeriveAuthorization(cg);
    DerivePattern(cg);
    DeriveAnnotations(cg);
    DeriveClientIdAndSeparator(cg);
  }

  /** Lines 42-46 and 92-158: a fresh Kotlin client, configured through none
      of its properties, leaves authorization off and publishes it so, sets no
      pattern, annotations or client id, keeps the `-` separator and adds only
      the two documentation files. */
  lemma FreshClientProcessOpts(upstream: State)
    requires forall k :: k in WrittenKeys ==> k !in upstream.additionalProperties
    ensures var r := ProcessOpts(Construct(upstream));
      && !r.client.configureAuthorization
      && Get(r.additionalProperties, OptConfigureAuth) == Bool(false)
      && Get(r.additionalProperties, OptConfigureAuthFilterPattern) == Bool(false)
      && Get(r.additionalProperties, OptConfigureClientId) == Bool(false)
      && r.client.authorizationFilterPattern.None?
      && r.client.additionalClientTypeAnnotations.None?
      && r.client.clientId.None?
      && r.client.basePathSeparator == Some("-")
      && Get(r.additionalProperties, BasePathSeparatorKey) == Str("-")
      && r.supportingFiles == upstream.supportingFiles + DocFiles(upstream.apiDocPath)
  {
    var cg := Construct(upstream);
    var d := Derive(cg);
    FreshClientDerive(upstream);
    var r := Install(cg, d);
    assert r == ProcessOpts(cg);
    assert r.supportingFiles == ClientFiles(cg, false);
    assert ClientFiles(cg, false) == upstream.supportingFiles + [] + DocFiles(upstream.apiDocPath);
    assert upstream.supportingFiles + [] == upstream.supportingFiles;
  }

  /** `(sourceFolder + '/' + packageName).replace(".", "/")`. */
  function InvokerFolder(sourceFolder: string, packageName: string): (r: string)
    ensures |r| == |sourceFolder| + 1 + |packageName|
    ensures '.' !in r
    ensures r[|sourceFolder|] == '/'
    ensures forall i :: 0 <= i < |sourceFolder| && sourceFolder[i] != '.' ==> r[i] == sourceFolder[i]
    ensures forall i :: 0 <= i < |packageName| && packageName[i] != '.' ==> r[|sourceFolder| + 1 + i] == packageName[i]
  {
    var path := sourceFolder + "/" + packageName;
    ReplaceCharRemoves(path, '.', '/');
    assert forall i :: 0 <= i < |packageName| ==> path[|sourceFolder| + 1 + i] == packageName[i];
    ReplaceChar(path, '.', '/')
  }

  /** The seven authorization support files, in the order they are added. */
  function AuthFiles(invokerFolder: string): seq<SupportingFile> {
    var authFolder := invokerFolder + "/auth";
    var configurationFolder := authFolder + "/configuration";
    [
      SupportingFile("client/auth/Authorization.mustache", authFolder, "Authorization.kt", true),
      SupportingFile("client/auth/AuthorizationBinder.mustache", authFolder, "AuthorizationBinder.kt", true),
      SupportingFile("client/auth/Authorizations.mustache", authFolder, "Authorizations.kt", true),
      SupportingFile("client/auth/AuthorizationFilter.mustache", authFolder, "AuthorizationFilter.kt", true),
      SupportingFile("client/auth/configuration/ApiKeyAuthConfiguration.mustache", configurationFolder, "ApiKeyAuthConfiguration.kt", true),
      SupportingFile("client/auth/configuration/ConfigurableAuthorization.mustache", configurationFolder, "ConfigurableAuthorization.kt", true),
      SupportingFile("client/auth/configuration/HttpBasicAuthConfiguration.mustache", configurationFolder, "HttpBasicAuthConfiguration.kt", true)
    ]
  }

  /** The documentation files every client gets; the README is never overwritten. */
  function DocFiles(apiDocPath: string): seq<SupportingFile> {
    [
      SupportingFile("client/doc/README.mustache", "", "README.md", false),
      SupportingFile("client/doc/auth.mustache", apiDocPath, "auth.md", true)
    ]
  }

  /** The authorization bundle: seven files, all overwritable, the binder second. */
  lemma AuthFilesLayout(invokerFolder: string)
    ensures |AuthFiles(invokerFolder)| == 7
    ensures forall i :: 0 <= i < 7 ==> AuthFiles(invokerFolder)[i].canOverwrite
    ensures AuthFiles(invokerFolder)[1].destinationFilename == "AuthorizationBinder.kt"
  {
  }

  /** The bundle's folders: four Kotlin files in `auth`, three in `auth/configuration`. */
  lemma AuthFilesFolders(invokerFolder: string)
    ensures |AuthFiles(invokerFolder)| == 7
    ensures forall i :: 0 <= i < 4 ==> AuthFiles(invokerFolder)[i].folder == invokerFolder + "/auth"
    ensures forall i :: 4 <= i < 7 ==> AuthFiles(invokerFolder)[i].folder == invokerFolder + "/auth/configuration"
  {
    assert (invokerFolder + "/auth") + "/configuration" == invokerFolder + "/auth/configuration";
  }

  /** The property keys `processOpts` writes are pairwise distinct. */
  lemma WrittenKeysDistinct()
    ensures OptConfigureAuth != OptUseAuth && OptConfigureAuth != OptConfigureAuthFilterPattern
    ensures OptConfigureAuth != OptConfigureClientId && OptConfigureAuth != AdditionalClientTypeAnnotationsKey
    ensures OptConfigureAuth != AuthorizationFilterPatternKey && OptConfigureAuth != BasePathSeparatorKey
    ensures OptConfigureAuth != ClientIdKey
    ensures OptUseAuth != OptConfigureAuthFilterPattern && OptUseAuth != OptConfigureClientId
    ensures OptUseAuth != AdditionalClientTypeAnnotationsKey && OptUseAuth != AuthorizationFilterPatternKey
    ensures OptUseAuth != BasePathSeparatorKey && OptUseAuth != ClientIdKey
    ensures OptConfigureAuthFilterPattern != OptConfigureClientId
    ensures OptConfigureAuthFilterPattern != AdditionalClientTypeAnnotationsKey
    ensures OptConfigureAuthFilterPattern != AuthorizationFilterPatternKey
    ensures OptConfigureAuthFilterPattern != BasePathSeparatorKey && OptConfigureAuthFilterPattern != ClientIdKey
    ensures OptConfigureClientId != AdditionalClientTypeAnnotationsKey
    ensures OptConfigureClientId != AuthorizationFilterPatternKey
    ensures OptConfigureClientId != BasePathSeparatorKey && OptConfigureClientId != ClientIdKey
    ensures AdditionalClientTypeAnnotationsKey != AuthorizationFilterPatternKey
    ensures AdditionalClientTypeAnnotationsKey != BasePathSeparatorKey && AdditionalClientTypeAnnotationsKey != ClientIdKey
    ensures AuthorizationFilterPatternKey != BasePathSeparatorKey && AuthorizationFilterPatternKey != ClientIdKey
    ensures BasePathSeparatorKey != ClientIdKey
  {
    assert OptConfigureAuthFilterPattern[0] != AuthorizationFilterPatternKey[0];
    assert OptConfigureClientId[0] != BasePathSeparatorKey[0];
  }

  /** Lines 92-94: the `configureAuth` property wins over the field when present,
      even when it maps to null (which reads as false). */
  function ConfigureAuthorization(cg: State): bool {
    var props := cg.additionalProperties;
    if OptConfigureAuth in props then ConvertToBoolean(props[OptConfigureAuth]) else cg.client.configureAuthorization
  }

  /** A string field overridden by the property `key` when that is non-null. */
  function StringOverride(props: Properties, key: string, field: Option<string>): (r: Option<string>)
    ensures Get(props, key) != Null ==> r == Some(ToJavaString(Get(props, key)))
    ensures Get(props, key) == Null ==> r == field
  {
    var v := Get(props, key);
    if v != Null then Some(ToJavaString(v)) else field
  }

  /** Lines 127-135: a list is taken as is; any other non-null value is printed,
      trimmed and split at `;` or line breaks. */
  function AnnotationsOverride(props: Properties, field: Option<seq<string>>): Option<seq<string>> {
    match Get(props, AdditionalClientTypeAnnotationsKey)
    case Null => field
    case StrList(items) => Some(items)
    case v => Some(SplitAnnotations(ToJavaString(v)))
  }

  /** Lines 95-101: the authorization flag, the server's `useAuth`, and both markers cleared. */
  function WriteAuthMarkers(props: Properties, auth: bool): (r: Properties)
    ensures Get(r, OptConfigureAuth) == Bool(auth) && Get(r, OptUseAuth) == Bool(true)
    ensures Get(r, OptConfigureAuthFilterPattern) == Bool(false) && Get(r, OptConfigureClientId) == Bool(false)
    ensures r.Keys == props.Keys + {OptConfigureAuth, OptUseAuth, OptConfigureAuthFilterPattern, OptConfigureClientId}
    ensures forall k :: (k != OptConfigureAuth && k != OptUseAuth && k != OptConfigureAuthFilterPattern
      && k != OptConfigureClientId) ==> Get(r, k) == Get(props, k)
  {
    WrittenKeysDistinct();
    props[OptConfigureAuth := Bool(auth)][OptUseAuth := Bool(true)]
      [OptConfigureAuthFilterPattern := Bool(false)][OptConfigureClientId := Bool(false)]
  }

  /** Lines 121-124: with authorization on, a known pattern sets its marker, and
      the pattern (possibly null) is written back. */
  function WritePattern(props: Properties, pattern: Option<string>): (r: Properties)
    ensures Get(r, AuthorizationFilterPatternKey) == OfString(pattern)
    ensures Get(r, OptConfigureAuthFilterPattern) ==
      if pattern.Some? then Bool(true) else Get(props, OptConfigureAuthFilterPattern)
    ensures r.Keys == props.Keys + {AuthorizationFilterPatternKey} + (if pattern.Some? then {OptConfigureAuthFilterPattern} else {})
    ensures forall k :: k != AuthorizationFilterPatternKey && k != OptConfigureAuthFilterPattern ==>
      Get(r, k) == Get(props, k)
  {
    WrittenKeysDistinct();
    (if pattern.Some? then props[OptConfigureAuthFilterPattern := Bool(true)] else props)
      [AuthorizationFilterPatternKey := OfString(pattern)]
  }

  /** Lines 142-145: a known client id sets its marker and is written back. */
  function WriteClientId(props: Properties, clientId: Option<string>): (r: Properties)
    ensures clientId.Some? ==> Get(r, ClientIdKey) == Str(clientId.value) && Get(r, OptConfigureClientId) == Bool(true)
    ensures clientId.Some? ==> r.Keys == props.Keys + {OptConfigureClientId, ClientIdKey}
    ensures clientId.Some? ==> forall k :: k != ClientIdKey && k != OptConfigureClientId ==> Get(r, k) == Get(props, k)
    ensures clientId.None? ==> r == props
  {
    WrittenKeysDistinct();
    if clientId.Some? then props[OptConfigureClientId := Bool(true)][ClientIdKey := Str(clientId.value)]
    else props
  }

  /** What `processOpts` reads out of the property bag, and the bag it leaves behind. */
  datatype Derived = Derived(
    auth: bool,
    pattern: Option<string>,
    annotations: Option<seq<string>>,
    clientId: Option<string>,
    separator: Option<string>,
    properties: Properties
  )

  /** Lines 92-151, in order: each setting is read from the bag (the auth pattern
      only with authorization on) and then written back into it. */
  function Derive(cg: State): Derived {
    var auth := ConfigureAuthorization(cg);
    var props1 := WriteAuthMarkers(cg.additionalProperties, auth);
    var pattern :=
      if auth then StringOverride(props1, AuthorizationFilterPatternKey, cg.client.authorizationFilterPattern)
      else cg.client.authorizationFilterPattern;
    var props2 := if auth then WritePattern(props1, pattern) else props1;
    var annotations := AnnotationsOverride(props2, cg.client.additionalClientTypeAnnotations);
    var props3 := WriteBack(props2, AdditionalClientTypeAnnotationsKey, OfList(annotations));
    var clientId := StringOverride(props3, ClientIdKey, cg.client.clientId);
    var props4 := WriteClientId(props3, clientId);
    var separator := StringOverride(props4, BasePathSeparatorKey, cg.client.basePathSeparator);
    var props5 := WriteBack(props4, BasePathSeparatorKey, OfString(separator));
    Derived(auth, pattern, annotations, clientId, separator, props5)
  }

  /** Lines 103-116 and 157-158: the supporting files after `processOpts`: the
      authorization bundle only with authorization on, then the two documentation files. */
  function ClientFiles(cg: State, auth: bool): seq<SupportingFile> {
    cg.supportingFiles
      + (if auth then AuthFiles(InvokerFolder(cg.sourceFolder, cg.packageName)) else [])
      + DocFiles(cg.apiDocPath)
  }

  /** The files already registered stay first; the bundle follows only with
      authorization on, and the two documentation files close the list. */
  lemma ClientFilesLayout(cg: State, auth: bool)
    ensures var r := ClientFiles(cg, auth);
      && |r| == |cg.supportingFiles| + (if auth then 7 else 0) + 2
      && r[..|cg.supportingFiles|] == cg.supportingFiles
      && (auth ==> r[|cg.supportingFiles| + 1].destinationFilename == "AuthorizationBinder.kt")
      && r[|r| - 2].destinationFilename == "README.md" && !r[|r| - 2].canOverwrite
      && r[|r| - 1].destinationFilename == "auth.md" && r[|r| - 1].folder == cg.apiDocPath
  {
    var sf := cg.supportingFiles;
    var bundle := if auth then AuthFiles(InvokerFolder(cg.sourceFolder, cg.packageName)) else [];
    var docs := DocFiles(cg.apiDocPath);
    var r := sf + bundle + docs;
    assert ClientFiles(cg, auth) == r;
    assert |bundle| == if auth then 7 else 0;
    assert r[..|sf|] == sf;
    assert r[|r| - 2] == docs[0] && r[|r| - 1] == docs[1];
    if auth {
      assert r[|sf| + 1] == bundle[1];
    }
  }

  /** Lines 153-167: the API templates are replaced, and the test template is
      kept only for JUnit. */
  function ClientTemplates(cg: State): (r: State)
    ensures r.kind == cg.kind && r.processed == cg.processed
    ensures r == cg.(apiTemplateFiles := r.apiTemplateFiles,
                     apiTestTemplateFiles := r.apiTestTemplateFiles,
                     apiDocTemplateFiles := r.apiDocTemplateFiles)
    ensures r.apiTemplateFiles.Keys == {"client/api.mustache"} && r.apiDocTemplateFiles.Keys == {"client/doc/api_doc.mustache"}
    ensures r.apiTestTemplateFiles.Keys == if cg.testTool == OptTestJunit then {"client/test/api_test.mustache"} else {}
  {
    cg.(
      apiTemplateFiles := map["client/api.mustache" := ".kt"],
      apiTestTemplateFiles := if cg.testTool == OptTestJunit then map["client/test/api_test.mustache" := ".kt"] else map[],
      apiDocTemplateFiles := map["client/doc/api_doc.mustache" := ".md"]
    )
  }

  /** Lines 103-116 and 153-167: the derived settings and the bag go back into the
      codegen, the supporting files are appended and the template maps replaced. */
  function Install(cg: State, d: Derived): (r: State)
    ensures r.processed == cg.processed + 1 && r.kind == cg.kind
    ensures r == cg.(additionalProperties := r.additionalProperties,
                     client := r.client,
                     supportingFiles := r.supportingFiles,
                     apiTemplateFiles := r.apiTemplateFiles,
                     apiTestTemplateFiles := r.apiTestTemplateFiles,
                     apiDocTemplateFiles := r.apiDocTemplateFiles,
                     processed := r.processed)
    ensures r.client == cg.client.(configureAuthorization := r.client.configureAuthorization,
                                   authorizationFilterPattern := r.client.authorizationFilterPattern,
                                   additionalClientTypeAnnotations := r.client.additionalClientTypeAnnotations,
                                   clientId := r.client.clientId,
                                   basePathSeparator := r.client.basePathSeparator)
    ensures r.client.configureAuthorization == d.auth && r.client.authorizationFilterPattern == d.pattern
    ensures r.client.additionalClientTypeAnnotations == d.annotations
    ensures r.client.clientId == d.clientId && r.client.basePathSeparator == d.separator
    ensures r.additionalProperties == d.properties && r.supportingFiles == ClientFiles(cg, d.auth)
  {
    ClientTemplates(cg.(
      additionalProperties := d.properties,
      client := cg.client.(
        configureAuthorization := d.auth,
        authorizationFilterPattern := d.pattern,
        additionalClientTypeAnnotations := d.annotations,
        clientId := d.clientId,
        basePathSeparator := d.separator
      ),
      supportingFiles := ClientFiles(cg, d.auth),
      processed := cg.processed + 1
    ))
  }

  /** `processOpts` of the Kotlin client codegen (the call to the unseen
      superclass implementation is not modelled). Only the client settings, the
      properties, the supporting files and the templates change. */
  function ProcessOpts(cg: State): (r: State)
    ensures r.processed == cg.processed + 1 && r.kind == cg.kind
    ensures r == cg.(additionalProperties := r.additionalProperties,
                     client := r.client,
                     supportingFiles := r.supportingFiles,
                     apiTemplateFiles := r.apiTemplateFiles,
                     apiTestTemplateFiles := r.apiTestTemplateFiles,
                     apiDocTemplateFiles := r.apiDocTemplateFiles,
                     processed := r.processed)
    ensures r.client == cg.client.(configureAuthorization := r.client.configureAuthorization,
                                   authorizationFilterPattern := r.client.authorizationFilterPattern,
                                   additionalClientTypeAnnotations := r.client.additionalClientTypeAnnotations,
                                   clientId := r.client.clientId,
                                   basePathSeparator := r.client.basePathSeparator)
  {
    Install(cg, Derive(cg))
  }

  /** Lines 92-101, 117-124, 138-145: how the authorization setting and the
      three markers come out of a derivation. */
  lemma DeriveAuthorization(cg: State)
    ensures var d := Derive(cg);
      && d.auth == (if OptConfigureAuth in cg.additionalProperties
                    then ConvertToBoolean(cg.additionalProperties[OptConfigureAuth])
                    else cg.client.configureAuthorization)
      && Get(d.properties, OptConfigureAuth) == Bool(d.auth)
      && Get(d.properties, OptUseAuth) == Bool(true)
      && Get(d.properties, OptConfigureAuthFilterPattern) == Bool(d.auth && d.pattern.Some?)
      && Get(d.properties, OptConfigureClientId) == Bool(d.clientId.Some?)
  {
    WrittenKeysDistinct();
  }

  /** The same, read off the codegen `processOpts` leaves behind: the setting... */
  lemma ProcessOptsAuthorization(cg: State)
    ensures ProcessOpts(cg).client.configureAuthorization ==
      if OptConfigureAuth in cg.additionalProperties
      then ConvertToBoolean(cg.additionalProperties[OptConfigureAuth])
      else cg.client.configureAuthorization
    ensures Get(ProcessOpts(cg).additionalProperties, OptConfigureAuth) == Bool(ProcessOpts(cg).client.configureAuthorization)
  {
    ProcessOptsInstalls(cg);
    DeriveAuthorization(cg);
  }

  /** ... and the markers it publishes. */
  lemma ProcessOptsMarkers(cg: State)
    ensures Get(ProcessOpts(cg).additionalProperties, OptUseAuth) == Bool(true)
    ensures Get(ProcessOpts(cg).additionalProperties, OptConfigureAuthFilterPattern) ==
      Bool(ProcessOpts(cg).client.configureAuthorization && ProcessOpts(cg).client.authorizationFilterPattern.Some?)
    ensures Get(ProcessOpts(cg).additionalProperties, OptConfigureClientId) == Bool(ProcessOpts(cg).client.clientId.Some?)
  {
    ProcessOptsInstalls(cg);
    DeriveAuthorization(cg);
  }

  /** Lines 117-124: the filter pattern is read only with authorization on,
      and then published as it ends up. */
  lemma DerivePattern(cg: State)
    ensures var d := Derive(cg);
      && d.pattern ==
        (if d.auth
         then StringOverride(cg.additionalProperties, AuthorizationFilterPatternKey, cg.client.authorizationFilterPattern)
         else cg.client.authorizationFilterPattern)
      && (d.auth ==> Get(d.properties, AuthorizationFilterPatternKey) == OfString(d.pattern))
      && (!d.auth ==> Get(d.properties, AuthorizationFilterPatternKey) == Get(cg.additionalProperties, AuthorizationFilterPatternKey))
  {
    WrittenKeysDistinct();
  }

  /** Lines 127-137: the annotations come from the bag when it holds them, and
      are published as they end up. */
  lemma DeriveAnnotations(cg: State)
    ensures var d := Derive(cg);
      && d.annotations == AnnotationsOverride(cg.additionalProperties, cg.client.additionalClientTypeAnnotations)
      && Get(d.properties, AdditionalClientTypeAnnotationsKey) == OfList(d.annotations)
  {
    WrittenKeysDistinct();
  }

  /** Lines 138-151: the client id and the base path separator come from the bag
      when it holds them; the separator is always published, the id only when known. */
  lemma DeriveClientIdAndSeparator(cg: State)
    ensures var d := Derive(cg);
      && d.clientId == StringOverride(cg.additionalProperties, ClientIdKey, cg.client.clientId)
      && (d.clientId.Some? ==> Get(d.properties, ClientIdKey) == Str(d.clientId.value))
      && (d.clientId.None? ==> Get(d.properties, ClientIdKey) == Get(cg.additionalProperties, ClientIdKey))
      && d.separator == StringOverride(cg.additionalProperties, BasePathSeparatorKey, cg.client.basePathSeparator)
      && Get(d.properties, BasePathSeparatorKey) == OfString(d.separator)
  {
    WrittenKeysDistinct();
  }

  /** The keys the bag holds afterwards: the six always written, the pattern
      with authorization on, and the client id when known. */
  lemma DeriveKeys(cg: State)
    ensures var d := Derive(cg);
      d.properties.Keys == cg.additionalProperties.Keys
        + {OptConfigureAuth, OptUseAuth, OptConfigureAuthFilterPattern, OptConfigureClientId,
           AdditionalClientTypeAnnotationsKey, BasePathSeparatorKey}
        + (if d.auth then {AuthorizationFilterPatternKey} else {})
        + (if d.clientId.Some? then {ClientIdKey} else {})
  {
  }

  /** Only the keys `processOpts` owns are written. */
  lemma DeriveKeepsOtherKeys(cg: State)
    ensures forall k :: k !in WrittenKeys ==> Get(Derive(cg).properties, k) == Get(cg.additionalProperties, k)
  {
  }

  /** Lines 117-124 and 127-151: where the pattern, annotations, client id and
      separator come from, and that each is published as it ends up. */
  lemma ProcessOptsSettings(cg: State)
    ensures var r := ProcessOpts(cg);
      && r.client.authorizationFilterPattern ==
        (if r.client.configureAuthorization
         then StringOverride(cg.additionalProperties, AuthorizationFilterPatternKey, cg.client.authorizationFilterPattern)
         else cg.client.authorizationFilterPattern)
      && (r.client.configureAuthorization ==>
          Get(r.additionalProperties, AuthorizationFilterPatternKey) == OfString(r.client.authorizationFilterPattern))
      && (!r.client.configureAuthorization ==>
          Get(r.additionalProperties, AuthorizationFilterPatternKey) == Get(cg.additionalProperties, AuthorizationFilterPatternKey))
      && r.client.additionalClientTypeAnnotations ==
         AnnotationsOverride(cg.additionalProperties, cg.client.additionalClientTypeAnnotations)
      && Get(r.additionalProperties, AdditionalClientTypeAnnotationsKey) == OfList(r.client.additionalClientTypeAnnotations)
      && r.client.clientId == StringOverride(cg.additionalProperties, ClientIdKey, cg.client.clientId)
      && (r.client.clientId.Some? ==> Get(r.additionalProperties, ClientIdKey) == Str(r.client.clientId.value))
      && (r.client.clientId.None? ==> Get(r.additionalProperties, ClientIdKey) == Get(cg.additionalProperties, ClientIdKey))
      && r.client.basePathSeparator == StringOverride(cg.additionalProperties, BasePathSeparatorKey, cg.client.basePathSeparator)
      && Get(r.additionalProperties, BasePathSeparatorKey) == OfString(r.client.basePathSeparator)
      && (forall k :: k !in WrittenKeys ==> Get(r.additionalProperties, k) == Get(cg.additionalProperties, k))
  {
    DerivePattern(cg);
    DeriveAnnotations(cg);
    DeriveClientIdAndSeparator(cg);
    DeriveKeepsOtherKeys(cg);
  }

  /** Lines 103-116 and 153-167: the auth bundle is appended exactly when
      authorization is on, the two documentation files always; the template maps
      are replaced, the test template only for JUnit. */
  lemma ProcessOptsFiles(cg: State)
    ensures var r := ProcessOpts(cg);
      && r.supportingFiles ==
         cg.supportingFiles
         + (if r.client.configureAuthorization then AuthFiles(InvokerFolder(cg.sourceFolder, cg.packageName)) else [])
         + DocFiles(cg.apiDocPath)
      && |r.supportingFiles| == |cg.supportingFiles| + (if r.client.configureAuthorization then 7 else 0) + 2
      && r.apiTemplateFiles == map["client/api.mustache" := ".kt"]
      && (r.apiTestTemplateFiles != map[] <==> cg.testTool == OptTestJunit)
      && (cg.testTool == OptTestJunit ==> r.apiTestTemplateFiles == map["client/test/api_test.mustache" := ".kt"])
      && r.apiDocTemplateFiles == map["client/doc/api_doc.mustache" := ".md"]
  {
    var r := ProcessOpts(cg);
    ClientFilesLayout(cg, r.client.configureAuthorization);
    assert "client/test/api_test.mustache" in map["client/test/api_test.mustache" := ".kt"];
  }

  /** The codegen `processOpts` leaves behind holds what it derived: the bag it
      wrote and the five settings. */
  predicate Installed(once: State, d: Derived) {
    && once.additionalProperties == d.properties
    && once.client.configureAuthorization == d.auth
    && once.client.authorizationFilterPattern == d.pattern
    && once.client.additionalClientTypeAnnotations == d.annotations
    && once.client.clientId == d.clientId
    && once.client.basePathSeparator == d.separator
  }

  lemma ProcessOptsInstalls(cg: State)
    ensures Installed(ProcessOpts(cg), Derive(cg))
  {
  }

  /** Deriving again from what a derivation installed gives the same
      authorization setting: the flag was written back under its own key. */
  lemma RederiveAuth(cg: State, once: State)
    requires Installed(once, Derive(cg))
    ensures Derive(once).auth == Derive(cg).auth
  {
    DeriveAuthorization(cg);
    DeriveAuthorization(once);
  }

  /** ... and the same filter pattern. */
  lemma RederivePattern(cg: State, once: State)
    requires Installed(once, Derive(cg))
    ensures Derive(once).pattern == Derive(cg).pattern
  {
    RederiveAuth(cg, once);
    DerivePattern(cg);
    DerivePattern(once);
  }

  /** ... and the same annotations. */
  lemma RederiveAnnotations(cg: State, once: State)
    requires Installed(once, Derive(cg))
    ensures Derive(once).annotations == Derive(cg).annotations
  {
    DeriveAnnotations(cg);
    DeriveAnnotations(once);
  }

  /** ... and the same client id and separator. */
  lemma RederiveClientIdAndSeparator(cg: State, once: State)
    requires Installed(once, Derive(cg))
    ensures Derive(once).clientId == Derive(cg).clientId && Derive(once).separator == Derive(cg).separator
  {
    DeriveClientIdAndSeparator(cg);
    DeriveClientIdAndSeparator(once);
  }

  /** Deriving again from what a derivation installed gives the same settings:
      every value written back reads back as the value it came from. */
  lemma RederiveSettings(cg: State, once: State)
    requires Installed(once, Derive(cg))
    ensures var d1, d2 := Derive(cg), Derive(once);
      d2.auth == d1.auth && d2.pattern == d1.pattern && d2.annotations == d1.annotations
      && d2.clientId == d1.clientId && d2.separator == d1.separator
  {
    RederiveAuth(cg, once);
    RederivePattern(cg, once);
    RederiveAnnotations(cg, once);
    RederiveClientIdAndSeparator(cg, once);
  }

  /** A second `processOpts` derives the same settings as the first. */
  lemma SecondDeriveSettings(cg: State)
    ensures var once := ProcessOpts(cg);
      var d1, d2 := Derive(cg), Derive(once);
      d2.auth == d1.auth && d2.pattern == d1.pattern && d2.annotations == d1.annotations
      && d2.clientId == d1.clientId && d2.separator == d1.separator
  {
    ProcessOptsInstalls(cg);
    RederiveSettings(cg, ProcessOpts(cg));
  }

  /** Deriving again leaves the authorization flag and the three markers as they were. */
  lemma RederiveMarkers(cg: State, once: State)
    requires Installed(once, Derive(cg))
    ensures Get(Derive(once).properties, OptConfigureAuth) == Get(once.additionalProperties, OptConfigureAuth)
    ensures Get(Derive(once).properties, OptUseAuth) == Get(once.additionalProperties, OptUseAuth)
    ensures Get(Derive(once).properties, OptConfigureAuthFilterPattern) == Get(once.additionalProperties, OptConfigureAuthFilterPattern)
    ensures Get(Derive(once).properties, OptConfigureClientId) == Get(once.additionalProperties, OptConfigureClientId)
  {
    RederiveSettings(cg, once);
    DeriveAuthorization(cg);
    DeriveAuthorization(once);
  }

  /** Deriving again leaves the published pattern and annotations as they were. */
  lemma RederivePublished(cg: State, once: State)
    requires Installed(once, Derive(cg))
    ensures Get(Derive(once).properties, AuthorizationFilterPatternKey) == Get(once.additionalProperties, AuthorizationFilterPatternKey)
    ensures Get(Derive(once).properties, AdditionalClientTypeAnnotationsKey) == Get(once.additionalProperties, AdditionalClientTypeAnnotationsKey)
  {
    RederiveSettings(cg, once);
    DerivePattern(cg);
    DerivePattern(once);
    DeriveAnnotations(cg);
    DeriveAnnotations(once);
  }

  /** Deriving again leaves the published client id and separator as they were. */
  lemma RederiveIds(cg: State, once: State)
    requires Installed(once, Derive(cg))
    ensures Get(Derive(once).properties, ClientIdKey) == Get(once.additionalProperties, ClientIdKey)
    ensures Get(Derive(once).properties, BasePathSeparatorKey) == Get(once.additionalProperties, BasePathSeparatorKey)
  {
    RederiveSettings(cg, once);
    DeriveClientIdAndSeparator(cg);
    DeriveClientIdAndSeparator(once);
  }

  /** Deriving again from what a derivation installed leaves every key of the bag as it was. */
  lemma RederiveKey(cg: State, once: State, k: string)
    requires Installed(once, Derive(cg))
    ensures Get(Derive(once).properties, k) == Get(once.additionalProperties, k)
  {
    if k == OptConfigureAuth || k == OptUseAuth || k == OptConfigureAuthFilterPattern || k == OptConfigureClientId {
      RederiveMarkers(cg, once);
    } else if k == AuthorizationFilterPatternKey || k == AdditionalClientTypeAnnotationsKey {
      RederivePublished(cg, once);
    } else if k == ClientIdKey || k == BasePathSeparatorKey {
      RederiveIds(cg, once);
    } else {
      DeriveKeepsOtherKeys(once);
    }
  }

  /** A second `processOpts` adds no key to the bag. */
  lemma SecondDeriveKeys(cg: State)
    ensures Derive(ProcessOpts(cg)).properties.Keys == ProcessOpts(cg).additionalProperties.Keys
  {
    ProcessOptsInstalls(cg);
    SecondDeriveSettings(cg);
    DeriveKeys(cg);
    DeriveKeys(ProcessOpts(cg));
  }

  /** Running `processOpts` again changes no client setting. */
  lemma ProcessOptsSettledSettings(cg: State)
    ensures ProcessOpts(ProcessOpts(cg)).client == ProcessOpts(cg).client
  {
    SecondDeriveSettings(cg);
  }

  /** Running `processOpts` again changes no property: every value it writes
      back reads back as the value it came from. (Only the supporting-file list
      keeps growing.) */
  lemma ProcessOptsSettledProperties(cg: State)
    ensures ProcessOpts(ProcessOpts(cg)).additionalProperties == ProcessOpts(cg).additionalProperties
  {
    var once := ProcessOpts(cg);
    SecondDeriveKeys(cg);
    ProcessOptsInstalls(cg);
    var p1, p2 := once.additionalProperties, Derive(once).properties;
    forall k | k in p1
      ensures p2[k] == p1[k]
    {
      RederiveKey(cg, once, k);
    }
  }

  // ---------------------------------------------------------------------------
  // ClientOptions and its builder
  // ---------------------------------------------------------------------------

  /** The immutable options record a client builder produces. */
  datatype ClientOptions = ClientOptions(
    additionalClientTypeAnnotations: Option<seq<string>>,
    authorizationFilterPattern: Option<string>,
    basePathSeparator: Option<string>,
    clientId: Option<string>,
    useAuth: bool,
    plural: bool,
    fluxForArrays: bool,
    generatedAnnotation: bool,
    ksp: bool
  )

  /** One call of a builder setter, with its argument. */
  datatype ClientSetter =
    | WithAuthorization(useAuth: bool)
    | WithAuthorizationFilterPattern(pattern: Option<string>)
    | WithClientId(id: Option<string>)
    | WithAdditionalClientTypeAnnotations(annotations: Option<seq<string>>)
    | WithBasePathSeparator(separator: Option<string>)
    | WithFluxForArrays(fluxForArrays: bool)
    | WithPlural(plural: bool)
    | WithGeneratedAnnotation(generatedAnnotation: bool)
    | WithKsp(ksp: bool)

  /** The fields of `ClientOptions`, to talk about them one at a time. */
  datatype ClientField =
    | AnnotationsField | PatternField | SeparatorField | ClientIdField
    | UseAuthField | PluralField | FluxField | GeneratedField | KspField

  datatype FieldValue = Flag(flag: bool) | Text(text: Option<string>) | Texts(texts: Option<seq<string>>)

  function FieldOf(s: ClientSetter): ClientField {
    match s
    case WithAuthorization(_) => UseAuthField
    case WithAuthorizationFilterPattern(_) => PatternField
    case WithClientId(_) => ClientIdField
    case WithAdditionalClientTypeAnnotations(_) => AnnotationsField
    case WithBasePathSeparator(_) => SeparatorField
    case WithFluxForArrays(_) => FluxField
    case WithPlural(_) => PluralField
    case WithGeneratedAnnotation(_) => GeneratedField
    case WithKsp(_) => KspField
  }

  function Argument(s: ClientSetter): FieldValue {
    match s
    case WithAuthorization(b) => Flag(b)
    case WithAuthorizationFilterPattern(p) => Text(p)
    case WithClientId(id) => Text(id)
    case WithAdditionalClientTypeAnnotations(a) => Texts(a)
    case WithBasePathSeparator(sep) => Text(sep)
    case WithFluxForArrays(b) => Flag(b)
    case WithPlural(b) => Flag(b)
    case WithGeneratedAnnotation(b) => Flag(b)
    case WithKsp(b) => Flag(b)
  }

  function Field(o: ClientOptions, f: ClientField): FieldValue {
    match f
    case AnnotationsField => Texts(o.additionalClientTypeAnnotations)
    case PatternField => Text(o.authorizationFilterPattern)
    case SeparatorField => Text(o.basePathSeparator)
    case ClientIdField => Text(o.clientId)
    case UseAuthField => Flag(o.useAuth)
    case PluralField => Flag(o.plural)
    case FluxField => Flag(o.fluxForArrays)
    case GeneratedField => Flag(o.generatedAnnotation)
    case KspField => Flag(o.ksp)
  }

  /** An untouched `DefaultClientOptionsBuilder`: only `generatedAnnotation` is on,
      and every reference (including the base path separator) is null. */
  const DefaultClientOptions: ClientOptions :=
    ClientOptions(None, None, None, None, false, false, false, true, false)

  /** One setter call: it records its argument verbatim in its own field. */
  function Set(o: ClientOptions, s: ClientSetter): (r: ClientOptions)
    ensures Field(r, FieldOf(s)) == Argument(s)
    ensures forall f :: f != FieldOf(s) ==> Field(r, f) == Field(o, f)
  {
    match s
    case WithAuthorization(b) => o.(useAuth := b)
    case WithAuthorizationFilterPattern(p) => o.(authorizationFilterPattern := p)
    case WithClientId(id) => o.(clientId := id)
    case WithAdditionalClientTypeAnnotations(a) => o.(additionalClientTypeAnnotations := a)
    case WithBasePathSeparator(sep) => o.(basePathSeparator := sep)
    case WithFluxForArrays(b) => o.(fluxForArrays := b)
    case WithPlural(b) => o.(plural := b)
    case WithGeneratedAnnotation(b) => o.(generatedAnnotation := b)
    case WithKsp(b) => o.(ksp := b)
  }

  /** A fresh builder, the setter calls in order, then `build` (which copies every field). */
  function Build(calls: seq<ClientSetter>): ClientOptions {
    if calls == [] then DefaultClientOptions
    else Set(Build(calls[..|calls| - 1]), calls[|calls| - 1])
  }

  /** Reference reading: the argument of the last call that set `f`, if any. */
  function LastWrite(calls: seq<ClientSetter>, f: ClientField, default: FieldValue): FieldValue {
    if calls == [] then default
    else if FieldOf(calls[|calls| - 1]) == f then Argument(calls[|calls| - 1])
    else LastWrite(calls[..|calls| - 1], f, default)
  }

  /** Every field of the built record holds the last value set for it, or its default. */
  lemma {:induction false} BuildLastWriteWins(calls: seq<ClientSetter>, f: ClientField)
    ensures Field(Build(calls), f) == LastWrite(calls, f, Field(DefaultClientOptions, f))
  {
    if calls != [] {
      BuildLastWriteWins(calls[..|calls| - 1], f);
    }
  }

  /** The values an untouched builder yields. */
  lemma UntouchedBuilder()
    ensures Build([]).generatedAnnotation
    ensures !Build([]).useAuth && !Build([]).plural && !Build([]).fluxForArrays && !Build([]).ksp
    ensures Build([]).additionalClientTypeAnnotations.None? && Build([]).authorizationFilterPattern.None?
    ensures Build([]).basePathSeparator.None? && Build([]).clientId.None?
  {
  }
}
