/** What the components see of the browser and the network: `localStorage` (a map
    from key to string), `navigate(...)` and `alert(...)` (recorded in order), and
    HTTP responses given as values (a status plus a decoded payload). */
module Web {
  import opened Js
  import opened Text

  /** A thrown JavaScript error: its `name` and `message`. */
  datatype Exception = Exception(name: string, message: string)

  /** `${e}` / `String(e)` for an error object (`Error.prototype.toString`). */
  function ExceptionText(e: Exception): string {
    if e.message == "" then e.name
    else if e.name == "" then e.message
    else e.name + ": " + e.message
  }

  /** The `TypeError` a property read on `null` throws (V8's wording). */
  function NullRead(prop: string): Exception {
    Exception("TypeError", "Cannot read properties of null (reading '" + prop + "')")
  }

  /** The outcome of `await response.json()`: a value, or the `SyntaxError` it throws. */
  datatype Body<T> = Parsed(value: T) | Unparsable(error: Exception)

  /** The outcome of one request. `Success` is `response.ok`, and its payload is read as
      the type the component declares; a `Failure` payload is read as untyped JSON; a
      `NetworkError` is the exception `fetch` rejects with. */
  datatype Response<T> =
    | Success(status: int, body: Body<T>)
    | Failure(status: int, errorBody: Body<Json>)
    | NetworkError(error: Exception)
  {
    /** The statuses `checkAuth` treats as a lost session. */
    predicate IsAuthFailure() {
      !NetworkError? && (status == 401 || status == 403)
    }
  }

  type Storage = map<string, string>

  /** `localStorage.getItem(key)` is truthy: present and not the empty string. */
  predicate HasItem(st: Storage, key: string) {
    key in st && st[key] != ""
  }

  /** `!token || !userStr` is false: both session keys hold a non-empty string. */
  predicate SignedIn(st: Storage) {
    HasItem(st, "token") && HasItem(st, "user")
  }

  /** `localStorage.setItem(key, value)` converts the value with `String(...)`;
      `undefined` becomes the text "undefined". */
  function StoredText(v: Option<Json>): string {
    Interpolate(v)
  }

  /** The page's browser: local storage plus the navigations and alerts it has issued. */
  class Browser {
    var storage: Storage
    var navigations: seq<string>
    var alerts: seq<string>

    constructor(initial: Storage)
      ensures storage == initial && navigations == [] && alerts == []
    {
      storage := initial;
      navigations := [];
      alerts := [];
    }

    method SetItem(key: string, value: string)
      modifies this`storage
      ensures storage == old(storage)[key := value]
    {
      storage := storage[key := value];
    }

    method RemoveItem(key: string)
      modifies this`storage
      ensures storage == old(storage) - {key}
    {
      storage := storage - {key};
    }

    method Navigate(path: string)
      modifies this`navigations
      ensures navigations == old(navigations) + [path]
    {
      navigations := navigations + [path];
    }

    method Alert(text: string)
      modifies this`alerts
      ensures alerts == old(alerts) + [text]
    {
      alerts := alerts + [text];
    }

    /** Logout as Admin.tsx, UserDashboard.tsx and Dashboard.tsx write it: both session
        keys are removed, then the page navigates to `target`. */
    method EndSession(target: string)
      modifies this`storage, this`navigations
      ensures storage == old(storage) - {"token", "user"}
      ensures !SignedIn(storage)
      ensures navigations == old(navigations) + [target]
    {
      RemoveItem("token");
      RemoveItem("user");
      Navigate(target);
    }
  }
}
