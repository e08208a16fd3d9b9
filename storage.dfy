/** The browser's `localStorage` and the JSON text kept in it. */
module Storage {
  import opened Js

  /** `localStorage`: a map from keys to strings that the session code reads
      and rewrites in place. */
  class LocalStorage {
    var items: map<string, string>

    constructor(initial: map<string, string>)
      ensures items == initial
    {
      items := initial;
    }

    /** `getItem(key)`: `null` (here `None`) when the key is absent. */
    function GetItem(key: string): Option<string>
      reads this
    {
      if key in items then Some(items[key]) else None
    }

    /** `setItem(key, value)` */
    method SetItem(key: string, value: string)
      modifies this
      ensures items == old(items)[key := value]
    {
      items := items[key := value];
    }

    /** `removeItem(key)` */
    method RemoveItem(key: string)
      modifies this
      ensures items == old(items) - {key}
    {
      items := items - {key};
    }
  }

  /** `JSON.stringify` and `JSON.parse` for one record type. */
  datatype Json<!T> = Json(stringify: T -> string, parse: string -> T)

  /** What the browser guarantees of JSON text: stringifying never yields the
      empty string, and parsing it back gives the value. */
  ghost predicate RoundTrips<T(!new)>(json: Json<T>) {
    forall x :: json.stringify(x) != "" && json.parse(json.stringify(x)) == x
  }
}
