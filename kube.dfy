/** Types shared by the import controller: object identities, object metadata,
    API errors and the outcome of a read against one of the API endpoints. */
module Kube {

  /** The (namespace, name) pair that identifies a namespaced object
      (client.ObjectKey, also the NamespacedName of a reconcile request). */
  datatype ObjectKey = ObjectKey(namespace: string, name: string)

  /** The metadata of an object: its identity and its annotations. A nil
      annotation map and an empty one read the same, so both are `map[]`. */
  datatype ObjectMeta = ObjectMeta(namespace: string, name: string, annotations: map<string, string>)

  /** An error returned by an API call. `Wrapped` is an error built with
      `%w`, which keeps its cause inspectable. */
  datatype Error =
    | NotFound
    | Failure(reason: string)
    | Wrapped(context: string, cause: Error)

  /** apierrors.IsNotFound: looks through `%w` wrapping to the cause. */
  predicate IsNotFound(e: Error) {
    match e
    case NotFound => true
    case Failure(_) => false
    case Wrapped(_, cause) => IsNotFound(cause)
  }

  datatype Option<T> = None | Some(value: T)

  /** The value of a call that returns `(T, error)`: a value or an error. */
  datatype Outcome<T> = Ok(value: T) | Err(error: Error)
}
