/** Shared vocabulary of the editors: nullable values, the outcome of a backend
    request, the write requests an editor issues, the notices (toasts) it emits
    and the parameters of the read queries it sends. */
module Common {

  /** A value that the source writes as `T | null`. */
  datatype Option<+T> = None | Some(value: T)

  /** The outcome of a row query: `{ data, error }` with `error` set (FetchErr)
      or not (FetchOk, where `data` itself may still be null). */
  datatype Fetch<+T> = FetchOk(data: Option<T>) | FetchErr

  /** The outcome of an insert, update or delete: only `error` is inspected. */
  datatype Status = Succeeded | Failed

  /** A write request against one table: insert a payload, update the row with
      this id by a patch, or delete the row with this id. */
  datatype Write<+P> = Insert(payload: P) | Update(id: string, patch: P) | Delete(id: string)

  /** A toast: destructive (Error) or not (Success), with its title and text. */
  datatype NoticeKind = Success | Error
  datatype Notice = Notice(kind: NoticeKind, title: string, description: string)

  /** The signed-in user of the authentication context; only its presence
      matters to the pages. */
  datatype User = User(id: string)

  /** Read-query parameters; filtering, ordering and limits run remotely. */
  datatype Order = Ascending(column: string) | Descending(column: string)
  datatype Filter = IdIn(ids: seq<string>) | ActiveOnly
  datatype Query = Select(table: string, filters: seq<Filter>, order: Option<Order>, limit: Option<nat>)

  /** The list an editor shows after a fetch: `data || []` when the query
      succeeded, the previous list when it failed. */
  function Refreshed<T>(previous: seq<T>, result: Fetch<seq<T>>): (r: seq<T>)
    ensures result.FetchErr? ==> r == previous
    ensures result == FetchOk(None) ==> r == []
    ensures result.FetchOk? && result.data.Some? ==> r == result.data.value
  {
    match result
    case FetchErr => previous
    case FetchOk(None) => []
    case FetchOk(Some(rows)) => rows
  }

  /** The "Failed to fetch ..." notice a failed list query emits. */
  function FetchNotices<T>(result: Fetch<T>, description: string): (ns: seq<Notice>)
    ensures |ns| <= 1
    ensures ns != [] <==> result.FetchErr?
    ensures result.FetchErr? ==> ns == [Notice(Error, "Error", description)]
  {
    if result.FetchErr? then [Notice(Error, "Error", description)] else []
  }
}
