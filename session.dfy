/** The per-browser session: a string-keyed dictionary that the route
    handlers read and change in place during one request. */
module Sessions {
  import opened Common

  /** Key under which the OAuth callback stores the bearer access token. */
  const TokenKey := "token"

  /** Key under which the authorization step stores the CSRF state nonce. */
  const StateKey := "oauth_state"

  class Session {
    var data: map<string, string>

    constructor (initial: map<string, string>)
      ensures data == initial
    {
      data := initial;
    }

    /** `session.get(key)` on the session object: the object-side view of
        `Common.Get` on its `data` field, with the same meaning. */
    function Lookup(key: string): (r: Option<string>)
      reads this
      ensures r.Some? <==> key in data
      ensures key in data ==> r.value == data[key]
    {
      Get(data, key)
    }

    /** `session[key] = value`. */
    method Set(key: string, value: string)
      modifies this
      ensures data == old(data)[key := value]
    {
      data := data[key := value];
    }

    /** `session.pop(key, None)`: removes the key if present. */
    method Pop(key: string)
      modifies this
      ensures data == old(data) - {key}
    {
      data := data - {key};
    }

    /** `session.clear()`. */
    method Clear()
      modifies this
      ensures data == map[]
    {
      data := map[];
    }
  }

  /** Whether the session carries a truthy `token` entry. */
  predicate HasToken(m: map<string, string>) {
    Truthy(Get(m, TokenKey))
  }
}
