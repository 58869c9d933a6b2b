/** Values the pages exchange with the browser and the network: optional
    values, the outcome of a request, what a `catch` block receives, and the
    browser's local storage. */
module Web {

  /** A value that may be absent: JavaScript's `null`/`undefined` is `None`. */
  datatype Option<+T> = None | Some(value: T) {
    function GetOr(default: T): T {
      match this
      case Some(v) => v
      case None => default
    }
  }

  /** The outcome of one awaited request: `Ok` carries the parsed body of a
      response whose `ok` flag was set; `Failed` stands for a non-ok status,
      a rejected `fetch` and a body that does not parse alike, since every
      page handles the three in the same `catch`. */
  datatype Reply<+T> = Ok(value: T) | Failed

  /** What a `catch (err)` receives: an `Error` with its message, or any
      other thrown value. */
  datatype Thrown = ErrorValue(message: string) | NonError

  /** The browser's `localStorage`, key to value. */
  type Storage = map<string, string>

  /** `localStorage.getItem(key)`: `null` when the key is absent. */
  function GetItem(storage: Storage, key: string): (r: Option<string>)
    ensures r.Some? <==> key in storage
    ensures r.Some? ==> r.value == storage[key]
  {
    if key in storage then Some(storage[key]) else None
  }

  /** JavaScript truthiness of a `string | null`: absent and `""` are falsy. */
  predicate Truthy(s: Option<string>) {
    s.Some? && s.value != ""
  }

  /** `a || fallback` for a `string | null`. */
  function OrElse(s: Option<string>, fallback: string): (r: string)
    ensures Truthy(s) ==> r == s.value
    ensures !Truthy(s) ==> r == fallback
  {
    if Truthy(s) then s.value else fallback
  }
}
