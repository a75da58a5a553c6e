/**
 * What the components receive back from the server. Requests themselves are
 * not modelled; each handler takes the outcome of its request as an input.
 */
module Gateway {
  import opened Common

  /** A value caught by a `catch` block. */
  datatype Thrown = ErrorValue(message: string) | OtherValue(text: string) {
    /** `err instanceof Error ? err.message : String(err)` */
    function Describe(): (r: string)
      ensures ErrorValue? ==> r == message
      ensures OtherValue? ==> r == text
    {
      match this
      case ErrorValue(m) => m
      case OtherValue(t) => t
    }
  }

  /** The JSON envelope `{ success, data, message }`: truthy `success` carries `data`. */
  datatype Envelope<T> = Success(data: T) | Failure(message: Option<string>)

  /** A `fetch` that completed with a status and a parsed body, or threw. */
  datatype FetchOutcome<B> = Completed(ok: bool, status: nat, body: B) | Threw(error: Thrown)

  /** A string field of a JSON body: missing, `null`, or a string. */
  datatype JsonText = Absent | Null | Text(text: string) {
    /** The field as an optional string: missing and `null` both read as nothing. */
    function AsOption(): (r: Option<string>)
      ensures r.Some? <==> Text?
      ensures Text? ==> r.value == text
    {
      if Text? then Some(text) else None
    }
  }

  /**
   * An axios request: resolved (2xx), rejected with a server response whose
   * body may carry a `message`, or rejected without any response.
   */
  datatype AxiosOutcome = Resolved | Rejected(message: JsonText) | NoResponse(error: Thrown)
}

/** The browser's persistent key-value store (`localStorage`). */
module Storage {
  import opened Common

  class Store {
    var items: map<string, string>

    constructor (initial: map<string, string>)
      ensures items == initial
    {
      items := initial;
    }

    /** `getItem(key)`: the stored value, or null when the key is absent. */
    function GetItem(key: string): (v: Option<string>)
      reads this
      ensures v.Some? <==> key in items
      ensures v.Some? ==> v.value == items[key]
    {
      if key in items then Some(items[key]) else None
    }

    /** `removeItem(key)`: the key is gone, every other entry is kept. */
    method RemoveItem(key: string)
      modifies this
      ensures items == old(items) - {key}
    {
      items := items - {key};
    }
  }
}
