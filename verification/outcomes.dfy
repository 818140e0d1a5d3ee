/** Failure-carrying values shared by every part of the model.

    The controller reports failures as Go `error` values. Errors that come
    from collaborators outside the model (the Kubernetes API, the database
    drivers, the certificate holder) are opaque here: they enter the model
    as inputs and are only ever passed through unchanged. */
module Outcomes {

  datatype Error =
    /** an error produced by a collaborator that is not modelled */
    | External(reason: string)
    /** a root credential variable missing from the pod environment */
    | MissingVariable(variable: string, namespace: string, pod: string)
    /** the MySQL query returned a nil result set */
    | NilQueryResult
    /** the bounded polling gave up before any ping succeeded */
    | WaitTimeout
    /** the API rejected a patch because the pod no longer exists */
    | NotFound(namespace: string, pod: string)

  datatype Option<+T> = None | Some(value: T)

  datatype Result<+T> = Ok(value: T) | Err(error: Error)

  /** The outcome of a step that yields no value. */
  datatype Status = Done | Failed(error: Error)

  /** Value stored under `k`, or `d` when `k` is absent (Go's zero-value map read). */
  function GetOr<K, V>(m: map<K, V>, k: K, d: V): (v: V)
    ensures k in m ==> v == m[k]
    ensures k !in m ==> v == d
  {
    if k in m then m[k] else d
  }
}
