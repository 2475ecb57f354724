/**
 * What the views see of a query: the key it is filed under, and the three
 * values a query hook hands back (`isLoading`, `error`, `data`), which the
 * model takes as inputs. How the query library fetches, caches and refetches
 * is not modelled.
 */
module Query {
  import opened Wrappers

  /** One element of a query key array: a string or `null`. */
  datatype KeyPart = Str(s: string) | Null

  type QueryKey = seq<KeyPart>

  /** Whether invalidating with `filter` reaches the query filed under `key`: `filter` must be a prefix of it. */
  predicate Matches(filter: QueryKey, key: QueryKey) {
    filter <= key
  }

  /** The state of a query as a component reads it; `error` is the error's message. */
  datatype Observed<T> = Observed(isLoading: bool, error: Option<string>, data: Option<T>)
}
