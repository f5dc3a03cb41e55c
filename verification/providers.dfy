/**
 The concrete configuration providers and the substitution every provider offers.
 Each provider's `get_values` is a function of the provider's own fields and of
 a `Host`: the process environment snapshot, the file system and the two
 collaborators (YAML parser, placeholder substitutor), which stay uninterpreted.
 */
module Providers {
  import opened ConfigTypes
  import Paths

  /** The cloud credentials a cloud provider wraps. */
  datatype CloudConfig = CloudConfig(baseUrl: string, accessToken: string, organizationId: string)

  /** Names under which the cloud provider publishes the three credentials. */
  const BaseUrlVariable: string := "GX_CLOUD_BASE_URL"
  const AccessTokenVariable: string := "GX_CLOUD_ACCESS_TOKEN"
  const OrganizationIdVariable: string := "GX_CLOUD_ORGANIZATION_ID"

  /** What the YAML parser returns for a variables file: a mapping, or nothing
      at all for a document without content. */
  datatype YamlDocument = Mapping(entries: Values) | Null

  /** Everything outside the providers that `get_values` consults. */
  datatype Host = Host(
    environ: Values,                                       // `dict(os.environ)` at the time of the call
    readFile: string -> Result<string>,                    // open the path and read it as text
    loadYaml: string -> Result<YamlDocument>,              // the YAML parser
    substituteVariable: (string, Values) -> Result<string>, // placeholders in one string
    substituteVariables: (Values, Values) -> Result<Values> // placeholders in every value of a mapping
  )

  datatype Provider =
    | RuntimeEnvironment(runtimeEnvironment: Values)
    | Environment
    | ConfigurationVariables(filePath: string, rootDirectory: Option<string>)
    | Cloud(cloudConfig: CloudConfig)

  /** The registry key of a provider: its class, one kind per provider class. */
  function KindOf(p: Provider): (k: ProviderKind)
    ensures k == RuntimeEnvironmentKind <==> p.RuntimeEnvironment?
    ensures k == EnvironmentKind <==> p.Environment?
    ensures k == ConfigurationVariablesKind <==> p.ConfigurationVariables?
    ensures k == CloudKind <==> p.Cloud?
  {
    match p
    case RuntimeEnvironment(_) => RuntimeEnvironmentKind
    case Environment => EnvironmentKind
    case ConfigurationVariables(_, _) => ConfigurationVariablesKind
    case Cloud(_) => CloudKind
  }

  /** The cloud provider's values: exactly three entries, one per credential. */
  function CloudValues(c: CloudConfig): (r: Values)
    ensures r.Keys == {BaseUrlVariable, AccessTokenVariable, OrganizationIdVariable}
    ensures |r| == 3
    ensures r[BaseUrlVariable] == c.baseUrl
    ensures r[AccessTokenVariable] == c.accessToken
    ensures r[OrganizationIdVariable] == c.organizationId
  {
    assert BaseUrlVariable != AccessTokenVariable by { assert |BaseUrlVariable| != |AccessTokenVariable|; }
    assert BaseUrlVariable != OrganizationIdVariable by { assert |BaseUrlVariable| != |OrganizationIdVariable|; }
    assert AccessTokenVariable != OrganizationIdVariable by { assert |AccessTokenVariable| != |OrganizationIdVariable|; }
    map[BaseUrlVariable := c.baseUrl,
        AccessTokenVariable := c.accessToken,
        OrganizationIdVariable := c.organizationId]
  }

  /** `dict(document) or {}` as intended: a document without content counts as
      the empty mapping. */
  function DocumentValues(document: YamlDocument): (r: Values)
    ensures document.Null? ==> r == map[]
    ensures document.Mapping? ==> r == document.entries
  {
    match document
    case Mapping(entries) => entries
    case Null => map[]
  }

  /** `dict(document) or {}` as written: `dict(None)` raises a TypeError before
      `or {}` is reached, so a document without content is an error. */
  function DocumentValuesAsWritten(document: YamlDocument): (r: Result<Values>)
    ensures r.Success? <==> document.Mapping?
    ensures r.Success? ==> r.value == DocumentValues(document)
  {
    match document
    case Mapping(entries) => Success(entries)
    case Null => Failure(NotIterable)
  }

  /** The counterexample for the as-written conversion: an empty variables
      file, which the parser reads as no document. */
  lemma EmptyDocumentCounterexample()
    ensures DocumentValuesAsWritten(Null) == Failure(NotIterable)
    ensures DocumentValues(Null) == map[]
  {
  }

  /** The `except OSError` clause around the variables-file read: a missing
      file becomes the empty mapping, every other outcome is left as it is. */
  function ToleratingMissingFile(attempt: Result<Values>): (r: Result<Values>)
    ensures attempt == Failure(OsError(ENOENT)) ==> r == Success(map[])
    ensures attempt != Failure(OsError(ENOENT)) ==> r == attempt
  {
    if attempt.Failure? && attempt.error.OsError? && attempt.error.errno == ENOENT then
      Success(map[])
    else
      attempt
  }

  /** The body of the `try` in the variables-file provider: substitute the
      environment into the configured path, resolve it, read and parse the file,
      then substitute the environment (and only the environment) into its values.
      The first step that raises ends the body with its error. */
  function ReadVariablesFile(filePath: string, rootDirectory: Option<string>, host: Host): (r: Result<Values>)
    ensures host.substituteVariable(filePath, host.environ).Failure? ==>
      r == Failure(host.substituteVariable(filePath, host.environ).error)
    ensures host.substituteVariable(filePath, host.environ).Success? ==>
      var read := host.readFile(Paths.ResolvePath(host.substituteVariable(filePath, host.environ).value, rootDirectory));
      && (read.Failure? ==> r == Failure(read.error))
      && (read.Success? && host.loadYaml(read.value).Failure? ==> r == Failure(host.loadYaml(read.value).error))
      && (read.Success? && host.loadYaml(read.value).Success? ==>
            r == host.substituteVariables(DocumentValues(host.loadYaml(read.value).value), host.environ))
  {
    var definedPath :- host.substituteVariable(filePath, host.environ);
    var contents :- host.readFile(Paths.ResolvePath(definedPath, rootDirectory));
    var document :- host.loadYaml(contents);
    host.substituteVariables(DocumentValues(document), host.environ)
  }

  /** The path substitution and the read succeed, and the parser reads the
      file as no document: the one input on which `dict(yaml.load(contents)) or {}`
      in the variables-file provider raises as written. */
  predicate ParsesToNull(filePath: string, rootDirectory: Option<string>, host: Host) {
    && host.substituteVariable(filePath, host.environ).Success?
    && var read := host.readFile(Paths.ResolvePath(host.substituteVariable(filePath, host.environ).value, rootDirectory));
       read.Success? && host.loadYaml(read.value) == Success(Null)
  }

  /** The `try` body as written: the parse result goes through
      `DocumentValuesAsWritten`, so a document without content raises. */
  function ReadVariablesFileAsWritten(filePath: string, rootDirectory: Option<string>, host: Host): (r: Result<Values>)
    ensures ParsesToNull(filePath, rootDirectory, host) ==> r == Failure(NotIterable)
    ensures !ParsesToNull(filePath, rootDirectory, host) ==> r == ReadVariablesFile(filePath, rootDirectory, host)
  {
    var definedPath :- host.substituteVariable(filePath, host.environ);
    var contents :- host.readFile(Paths.ResolvePath(definedPath, rootDirectory));
    var document :- host.loadYaml(contents);
    var variables :- DocumentValuesAsWritten(document);
    host.substituteVariables(variables, host.environ)
  }

  /** The variables-file provider's values as written: they agree with the
      intended `VariablesFileValues` on every file except one the parser reads
      as no document, where the written provider raises the TypeError. */
  function VariablesFileValuesAsWritten(filePath: string, rootDirectory: Option<string>, host: Host): (r: Result<Values>)
    ensures ParsesToNull(filePath, rootDirectory, host) ==> r == Failure(NotIterable)
    ensures !ParsesToNull(filePath, rootDirectory, host) ==> r == VariablesFileValues(filePath, rootDirectory, host)
    ensures r != Failure(NotIterable) ==> r == VariablesFileValues(filePath, rootDirectory, host)
  {
    ToleratingMissingFile(ReadVariablesFileAsWritten(filePath, rootDirectory, host))
  }

  /** The written and intended providers give different outcomes exactly when
      the file parses to no document and substituting into the empty mapping
      does not itself raise the same error the written conversion raises. */
  lemma WrittenDiffersExactlyOnNullDocument(filePath: string, rootDirectory: Option<string>, host: Host)
    ensures VariablesFileValuesAsWritten(filePath, rootDirectory, host) != VariablesFileValues(filePath, rootDirectory, host)
        <==> ParsesToNull(filePath, rootDirectory, host) && host.substituteVariables(map[], host.environ) != Failure(NotIterable)
  {
  }

  /** The variables-file provider's values. */
  function VariablesFileValues(filePath: string, rootDirectory: Option<string>, host: Host): (r: Result<Values>)
    // a missing file is never reported
    ensures r != Failure(OsError(ENOENT))
    // the placeholder in the path is resolved against the environment; its failure propagates
    ensures host.substituteVariable(filePath, host.environ).Failure? ==>
      r == ToleratingMissingFile(Failure(host.substituteVariable(filePath, host.environ).error))
    ensures host.substituteVariable(filePath, host.environ).Success? ==>
      var path := Paths.ResolvePath(host.substituteVariable(filePath, host.environ).value, rootDirectory);
      var read := host.readFile(path);
      // file not found: no variables
      && (read == Failure(OsError(ENOENT)) ==> r == Success(map[]))
      // any other read error propagates unchanged
      && (read.Failure? && read.error != OsError(ENOENT) ==> r == Failure(read.error))
      // a parse error propagates unchanged, unless it is itself an ENOENT OSError
      && (read.Success? && host.loadYaml(read.value).Failure? ==>
            r == ToleratingMissingFile(Failure(host.loadYaml(read.value).error)))
      // a document without content is the empty mapping before substitution (the intent of `or {}`)
      && (read.Success? && host.loadYaml(read.value) == Success(Null) ==>
            r == ToleratingMissingFile(host.substituteVariables(map[], host.environ)))
      // otherwise one substitution pass over the file's values, against the environment
      && (read.Success? && host.loadYaml(read.value).Success? && host.loadYaml(read.value).value.Mapping? ==>
            r == ToleratingMissingFile(host.substituteVariables(host.loadYaml(read.value).value.entries, host.environ)))
  {
    ToleratingMissingFile(ReadVariablesFile(filePath, rootDirectory, host))
  }

  /** A provider's `get_values`. */
  function GetValues(p: Provider, host: Host): (r: Result<Values>)
    ensures !p.ConfigurationVariables? ==> r.Success?
    ensures p.RuntimeEnvironment? ==> r.value == p.runtimeEnvironment
    ensures p.Environment? ==> r.value == host.environ
    ensures p.Cloud? ==> r == Success(CloudValues(p.cloudConfig))
    ensures p.ConfigurationVariables? ==> r == VariablesFileValues(p.filePath, p.rootDirectory, host)
  {
    match p
    case RuntimeEnvironment(runtimeEnvironment) => Success(runtimeEnvironment)
    case Environment => Success(host.environ)
    case ConfigurationVariables(filePath, rootDirectory) => VariablesFileValues(filePath, rootDirectory, host)
    case Cloud(cloudConfig) => Success(CloudValues(cloudConfig))
  }

  /** `substitute_config`, shared by every provider: the given values, or, when
      none are given, the provider's own values `ownValues`, are handed to the
      substitutor `substituteAll`; a failure to obtain the own values propagates. */
  function ApplySubstitution<C>(ownValues: Result<Values>, config: C, configValues: Option<Values>,
                                substituteAll: (C, Values) -> Result<C>): (r: Result<C>)
    ensures configValues.Some? ==> r == substituteAll(config, configValues.value)
    ensures configValues.None? && ownValues.Success? ==> r == substituteAll(config, ownValues.value)
    ensures configValues.None? && ownValues.Failure? ==> r == Failure(ownValues.error)
  {
    var values :- if configValues.Some? then Success(configValues.value) else ownValues;
    substituteAll(config, values)
  }

  /** `substitute_config` on a concrete provider: omitting the values behaves
      exactly like passing the provider's own `get_values()`. */
  function SubstituteConfig<C>(p: Provider, host: Host, config: C, configValues: Option<Values>,
                               substituteAll: (C, Values) -> Result<C>): (r: Result<C>)
    ensures configValues.Some? ==> r == substituteAll(config, configValues.value)
    ensures configValues.None? && GetValues(p, host).Success? ==>
      r == substituteAll(config, GetValues(p, host).value)
    ensures configValues.None? && GetValues(p, host).Failure? ==> r == Failure(GetValues(p, host).error)
  {
    ApplySubstitution(GetValues(p, host), config, configValues, substituteAll)
  }

  /** `substitute_config` as written: the cloud provider's constructor does not
      run the base constructor, so it has no substitutor and every call fails. */
  function SubstituteConfigAsWritten<C>(p: Provider, host: Host, config: C, configValues: Option<Values>,
                                        substituteAll: (C, Values) -> Result<C>): (r: Result<C>)
    ensures p.Cloud? ==> r == Failure(MissingSubstitutor)
    ensures !p.Cloud? ==> r == SubstituteConfig(p, host, config, configValues, substituteAll)
  {
    if p.Cloud? then Failure(MissingSubstitutor)
    else SubstituteConfig(p, host, config, configValues, substituteAll)
  }

  /** The counterexample for the as-written cloud provider: with a substitutor
      that always succeeds, the intended call succeeds and the written one fails. */
  lemma CloudSubstitutionCounterexample(c: CloudConfig, host: Host, config: string)
    ensures var substituteAll := (s: string, v: Values) => Success(s);
      && SubstituteConfigAsWritten(Cloud(c), host, config, None, substituteAll) == Failure(MissingSubstitutor)
      && SubstituteConfig(Cloud(c), host, config, None, substituteAll) == Success(config)
  {
  }
}
