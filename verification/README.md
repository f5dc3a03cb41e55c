# Configuration providers of Great Expectations, modelled in Dafny

This project models the configuration-aggregation layer of Great Expectations
(`great_expectations/core/config_provider.py`).

An aggregating `ConfigurationProvider` keeps an insertion-ordered registry with
at most one provider per kind. It can look a provider up by kind. It merges the
values of all registered providers, and a provider registered later overrides
an earlier one on a shared key. There are four concrete providers:

- the runtime-environment provider, which returns the mapping it was built with;
- the environment provider, which returns a snapshot of the process environment;
- the variables-file provider, which reads a YAML file of user variables;
- the cloud provider, which publishes three cloud credentials.

Every provider also offers `substitute_config`. When no values are passed to it,
it uses the provider's own values.

Modules:

- `ConfigTypes` (`config_types.dfy`): the values mapping, provider kinds, errors, `Option` and `Result`.
- `Merge` (`merge.dfy`): the left-to-right `dict.update` fold, checked against a reference definition of "last provider holding the key".
- `Paths` (`paths.dfy`): POSIX `os.path.isabs` and `os.path.join`, and how the variables file's path is resolved.
- `Providers` (`providers.dfy`): the four providers, the variables-file error policy, and `substitute_config`.
- `Aggregation` (`aggregation.dfy`): registration, lookup, the aggregated `get_values`, and the aggregate's `substitute_config`.

Python exceptions are `Failure` values of `Result`. The process environment,
the file system, the YAML parser and the placeholder substitutor are fields of
a `Host` value. The environment is a map snapshot. The other three are
uninterpreted functions. So every property holds for any environment, any file
contents and any parser or substitutor behaviour.

Two points about how the model reads the code:

- The `except OSError` clause covers the whole `try` body, not only the file read.
  An `OSError` with `errno` ENOENT from the path substitution, the parser or the
  value substitution is therefore also turned into the empty mapping.
  `ToleratingMissingFile` is applied to the whole body.
- Line 160 of `great_expectations/core/config_provider.py` converts the parse result with `dict(...) or {}`. The `or {}` shows that
  a document without content is meant to give the empty mapping. As written,
  `dict(None)` raises a TypeError first (see "## Findings"). The provider and
  aggregate layers (`ReadVariablesFile`, `VariablesFileValues`, `GetValues`,
  `Aggregate`, `GetAllValues`) use the corrected conversion `DocumentValues`.
  `ReadVariablesFileAsWritten` and `VariablesFileValuesAsWritten` keep the
  line as written. The written and corrected providers can differ only when the
  file parses to no document (`ParsesToNull`). There the written provider raises
  the TypeError; on every other input the two are equal.
  `WrittenDiffersExactlyOnNullDocument` pins down the exact condition. They
  differ when the file parses to no document, unless substituting into the empty
  mapping happens to raise that same error.

## Model

| member | source | states |
|---|---|---|
| Merge.LastProviding | great_expectations/core/config_provider.py:96-97 | Reference definition of precedence: the index it returns holds the key, and no later map holds it; -1 means no map holds it |
| Merge.MergeAll | great_expectations/core/config_provider.py:99-102 | The `values.update` loop: no providers give the empty mapping, and every entry of the last map survives into the result with its value |
| Merge.MergeMatchesReference | great_expectations/core/config_provider.py:99-102 | The `update` fold holds a key exactly when some map does; its value comes from the last map holding the key |
| Merge.MergedKeysAreUnion | great_expectations/core/config_provider.py:99-102 | The merged key set is the union of all the maps' key sets; merging no maps gives the empty mapping |
| Merge.LaterMapWins | great_expectations/core/config_provider.py:96-101 | If map i holds k and no later map does, the merged value of k is map i's value |
| Merge.MergeConcat | great_expectations/core/config_provider.py:99-102 | Merging a concatenation equals merging each part and then overriding the first result with the second |
| Merge.AppendKeepsOtherKeys | great_expectations/core/config_provider.py:100-101 | An update without key k leaves k unchanged: still absent, or present with the same value |
| Merge.AppendOverrides | great_expectations/core/config_provider.py:100-101 | An update holding k sets k to the update's value |
| Paths.Join | great_expectations/core/config_provider.py:156 | `os.path.join`: an absolute second part replaces the first. Otherwise the result starts with the first part and ends with the second, with at most one separator added at the join. No separator is added after an empty first part or one ending in "/" |
| Paths.IsAbs | great_expectations/core/config_provider.py:151 | POSIX `os.path.isabs`: a path is absolute exactly when it starts with "/" |
| Paths.AbsoluteExactlyWhenRootIgnored | great_expectations/core/config_provider.py:151-156 | A path is absolute exactly when resolving it without a root leaves it unchanged. A relative path resolves to "./" followed by the path |
| Paths.BaseDirectory | great_expectations/core/config_provider.py:151-152 | `root_directory or os.curdir`: a non-empty root is used; a missing or empty root gives `os.curdir`, "." |
| Paths.ResolvePath | great_expectations/core/config_provider.py:151-156 | An absolute path is kept as it is. A relative path goes under the base directory with exactly one separator between them, with none added when the base already ends in "/". The result is absolute exactly when the path or the base directory is |
| Paths.ResolveIsIdempotentUnderAbsoluteRoot | great_expectations/core/config_provider.py:151-156 | Under an absolute root every resolved path is absolute, so resolving it again changes nothing |
| Providers.CloudValues | great_expectations/core/config_provider.py:183-192 | Exactly three entries, under the three distinct credential names, holding the base URL, access token and organization id |
| Providers.KindOf | great_expectations/core/config_provider.py:72 | `type(provider)`: each provider class has its own kind, and a provider has a given kind exactly when it is of that class |
| Providers.DocumentValues | great_expectations/core/config_provider.py:160 | Intended conversion of the parse result: a mapping is kept as it is, and a null document becomes the empty mapping |
| Providers.DocumentValuesAsWritten | great_expectations/core/config_provider.py:160 | As written, the conversion succeeds exactly for a mapping document, with the same values as the intended one; a null document raises |
| Providers.EmptyDocumentCounterexample | great_expectations/core/config_provider.py:160 | For a null document the written code raises a TypeError, while the intended result is the empty mapping |
| Providers.ToleratingMissingFile | great_expectations/core/config_provider.py:166-169 | An OSError with errno ENOENT becomes the empty mapping; every other outcome, including other OSErrors, passes through unchanged |
| Providers.ReadVariablesFile | great_expectations/core/config_provider.py:145-164 | The `try` body: the path placeholder is substituted from the environment, and the path is resolved and read. The document is parsed and its values are substituted from the environment. The first step that raises ends the body with its error |
| Providers.ReadVariablesFileAsWritten | great_expectations/core/config_provider.py:146-164 | The `try` body as written: when the file parses to no document it raises the TypeError, and on every other input it equals the corrected body |
| Providers.VariablesFileValues | great_expectations/core/config_provider.py:144-169 | A missing file is never reported. Other read errors, parse errors and substitution errors propagate unchanged, unless they are themselves an ENOENT OSError. The path placeholder is resolved against the environment. The file's values get one substitution pass, against the environment only. A null document is the empty mapping before substitution; this is the intended line 160, see "## Findings" |
| Providers.VariablesFileValuesAsWritten | great_expectations/core/config_provider.py:144-169 | The provider as written: when the path substitution and read succeed and the file parses to no document, it raises the TypeError. On every other input it equals the intended provider |
| Providers.WrittenDiffersExactlyOnNullDocument | great_expectations/core/config_provider.py:144-169 | The written and intended providers give different outcomes exactly when the file parses to no document and substituting into the empty mapping does not itself raise NotIterable |
| Providers.GetValues | great_expectations/core/config_provider.py:105-192 | Only the variables-file provider can fail. The runtime provider returns its captured mapping (114-115). The environment provider returns the environment snapshot (126-127). The variables-file provider is `VariablesFileValues` (144-169). The cloud provider returns the three credentials under their three names (183-192) |
| Providers.ApplySubstitution | great_expectations/core/config_provider.py:42-44 | Values that are given are handed to the substitutor. Without them the provider's own values are used, and if getting those fails, that failure is the result |
| Providers.SubstituteConfig | great_expectations/core/config_provider.py:27-44 | On a concrete provider, omitting the values behaves exactly like passing its own `get_values()` result |
| Providers.SubstituteConfigAsWritten | great_expectations/core/config_provider.py:180-181 | As written, the cloud provider never gets a substitutor, so its `substitute_config` always fails; other providers behave as intended |
| Providers.CloudSubstitutionCounterexample | great_expectations/core/config_provider.py:180-181 | With a substitutor that always succeeds, the cloud provider's written call fails while the intended one returns the config |
| Aggregation.Register | great_expectations/core/config_provider.py:64-75 | A call is rejected exactly when its kind is already registered. A rejected call raises DuplicateProvider and leaves the registry unchanged. An accepted call appends exactly the new provider. Distinct kinds are preserved |
| Aggregation.Lookup | great_expectations/core/config_provider.py:90 | Nothing is found exactly when no provider of the kind is present; a found provider is present and of that kind |
| Aggregation.GetProvider | great_expectations/core/config_provider.py:77-90 | Returns nothing, not an error, exactly when the kind was never registered; otherwise returns a registered provider of that kind |
| Aggregation.LookupSkipsPrefix | great_expectations/core/config_provider.py:90 | Providers of other kinds before the searched part do not change the lookup |
| Aggregation.LookupIgnoresSuffix | great_expectations/core/config_provider.py:90 | Once a kind is found, appending providers does not change the lookup |
| Aggregation.DuplicateKeepsEarlier | great_expectations/core/config_provider.py:72-75 | Registering an already registered kind fails and changes nothing; lookup still returns the earlier provider |
| Aggregation.RegisterThenLookup | great_expectations/core/config_provider.py:72-90 | After a successful registration, lookup of the new kind returns the new provider, and lookup of every other kind is unchanged |
| Aggregation.GetProviderReturnsRegisteredInstance | great_expectations/core/config_provider.py:72-90 | In a registry with distinct kinds, `get_provider` of a registered provider's kind returns that instance |
| Aggregation.RegisterEach | great_expectations/core/config_provider.py:64-75 | Registering in sequence only grows the registry: earlier entries keep their place and order, and kinds stay distinct |
| Aggregation.DistinctRegistrationsSucceed | great_expectations/core/config_provider.py:72-75 | A sequence of new, distinct kinds registers completely, in order |
| Aggregation.RepeatedKindIsRejected | great_expectations/core/config_provider.py:72-74 | A sequence that repeats a kind is rejected |
| Aggregation.RejectedOnceRegistered | great_expectations/core/config_provider.py:72-74 | A sequence containing an already registered kind is rejected |
| Aggregation.Aggregate | great_expectations/core/config_provider.py:99-102 | Succeeds exactly when every provider succeeds; the result is then the left-to-right merge of the providers' values |
| Aggregation.FirstFailureAborts | great_expectations/core/config_provider.py:100-101 | No partial result: the first provider that raises makes the whole aggregation raise its error |
| Aggregation.GetAllValues | great_expectations/core/config_provider.py:92-102 | The aggregated `get_values`: the empty registry gives the empty mapping; otherwise succeeds exactly when every provider does, and returns the merge in registration order |
| Aggregation.AggregatedKeysAreUnion | great_expectations/core/config_provider.py:99-102 | The aggregated key set is the union of all registered providers' key sets |
| Aggregation.LastRegisteredWins | great_expectations/core/config_provider.py:94-102 | A key's aggregated value comes from the last registered provider whose values hold the key |
| Aggregation.RegisterOverridesOnlyOwnKeys | great_expectations/core/config_provider.py:96-101 | One more registration overrides exactly the new provider's keys; every other key keeps its presence and value |
| Aggregation.SubstituteConfig | great_expectations/core/config_provider.py:42-44 | On the aggregate, omitting the values behaves exactly like passing the aggregated `get_values()` result |
| Aggregation.RuntimeThenEnvironment | great_expectations/core/config_provider.py:96-101 | Register the runtime mapping {X: runtime}, then the environment with X=envval: both registrations succeed, and X resolves to envval |

## Findings

| source | as written | input that shows it | evidently intended | confidence | as-written member | corrected member |
|---|---|---|---|---|---|---|
| great_expectations/core/config_provider.py:160 | `dict(yaml.load(contents)) or {}` calls `dict` on the parse result before `or {}`. `dict(None)` raises TypeError, which is not an OSError, so the provider fails | an empty (or comment-only) variables file, which the YAML loader returns as None | a document without content is the empty mapping, which is what `or {}` is for | medium, not executed (assumes the loader returns None for an empty document) | Providers.DocumentValuesAsWritten | Providers.DocumentValues |
| great_expectations/core/config_provider.py:180-181 | `CloudConfigurationProvider.__init__` does not call `super().__init__()`, so `_substitutor` is never set | `substitute_config(config)` on a cloud provider raises AttributeError | every provider can substitute, like the other three | high, not executed | Providers.SubstituteConfigAsWritten | Providers.SubstituteConfig |

The rest of the model uses the corrected members: `ReadVariablesFile` converts
the document with `DocumentValues`, and `Providers.SubstituteConfig` gives the
cloud provider a substitutor.

## Left out

- File opening and reading, and `os.environ`: these are I/O. They are `Host.readFile` (its outcome is a string or an OSError with errno) and `Host.environ` (the snapshot at the time of the call).
- The YAML parser: a foreign library. It is `Host.loadYaml`, uninterpreted. Documents that are neither a mapping nor null, and values that are not strings, are outside the model.
- The placeholder grammar of `ConfigurationSubstitutor`: `config_substitutor.py` is not part of this model. Substituting one string and substituting every value of a mapping are the uninterpreted `Host.substituteVariable` and `Host.substituteVariables`. Substituting an arbitrary config is a function parameter `substituteAll` over a generic config type.
- `GXCloudConfig` and the deferred import of `GXCloudEnvironmentVariable`: `cloud_constants.py` is not part of this model. The config is three strings. The three variable names are the distinct constants `GX_CLOUD_BASE_URL`, `GX_CLOUD_ACCESS_TOKEN` and `GX_CLOUD_ORGANIZATION_ID`.
- The abstract base class and `type(provider)` as the registry key: these are replaced by the enumeration `ProviderKind` and `KindOf`. Only the four concrete provider classes can be registered. Registering a subclass, or a nested `ConfigurationProvider`, is not modelled.
- The runtime provider's aliasing of the caller's dictionary: the mapping is returned by value.
- Windows path rules (`ntpath`): paths follow POSIX `os.path.isabs` and `os.path.join`.
- `cast(Dict[str, str], ...)`: it does nothing at run time, so it has no counterpart.
- Concurrent registration and lookup: the model is sequential, as the source assumes.
