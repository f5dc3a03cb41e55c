/**
 Shared vocabulary of the configuration-provider layer: the values mapping every
 provider produces, the kinds of provider the aggregating provider can hold, the
 errors the layer raises or lets through, and the failure-compatible wrappers the
 other modules use to model Python exceptions.
 */
module ConfigTypes {

  /** Configuration-variable name to its resolved string content. */
  type Values = map<string, string>

  /** The provider classes. The source keys its registry by `type(provider)`;
      here the kind is an explicit enumeration. */
  datatype ProviderKind =
    | RuntimeEnvironmentKind
    | EnvironmentKind
    | ConfigurationVariablesKind
    | CloudKind

  /** `errno.ENOENT` on a POSIX host: the file does not exist. */
  const ENOENT: int := 2

  /** The exceptions the layer raises, or lets through from its collaborators. */
  datatype Error =
    | DuplicateProvider(kind: ProviderKind)  // the ValueError of a second registration of one kind
    | OsError(errno: int)                     // an OSError with its errno
    | NotIterable                             // the TypeError of `dict(None)`
    | MissingSubstitutor                      // the AttributeError of a provider without `_substitutor`
    | Collaborator(reason: string)            // raised by the YAML parser or the substitutor

  datatype Option<+T> = None | Some(value: T)

  /** A computation that either returns a value or raises an `Error`. */
  datatype Result<+T> = Success(value: T) | Failure(error: Error) {

    predicate IsFailure() {
      Failure?
    }

    function PropagateFailure<U>(): Result<U>
      requires Failure?
    {
      Failure(error)
    }

    function Extract(): T
      requires Success?
    {
      value
    }
  }
}
