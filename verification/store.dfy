/**
 The store contract shared by every backend: the two errors a store may
 report, and the shapes of the replies its operations give.
 */
module Store {
  import opened Basics

  /** ErrNotFound and ErrAlreadyExists. */
  datatype Error = NotFound | AlreadyExists

  /** The reply of `Get`: the stored value, or the error. */
  datatype Fetched<+V> = Found(value: V) | Failed(err: Error)

  /** The reply of a mutating operation: the error it returned (None for Go's
      nil) and the store as it is afterwards. */
  datatype Updated<+S> = Updated(err: Option<Error>, store: S)
}
