/** Values shared by the three routers: optional values, Python truthiness of
    session strings, and `dict.get` on a string-keyed session. */
module Common {

  datatype Option<+T> = None | Some(value: T) {
    /** `d.get(key, default)`: the value when present, else the default. */
    function GetOr(default: T): T {
      match this
      case Some(v) => v
      case None => default
    }
  }

  /** A handler's answer together with the session it leaves behind. */
  datatype Handled<R> = Handled(response: R, session: map<string, string>)

  /** Path every unauthenticated browser request is sent back to. */
  const Root := "/"

  /** Status code of Starlette's RedirectResponse when none is given. */
  const TemporaryRedirect := 307

  /** Python truthiness of an optional string: `None` and `""` are falsy. */
  predicate Truthy(v: Option<string>) {
    v.Some? && v.value != ""
  }

  /** `session.get(key)` on the session dictionary. */
  function Get(m: map<string, string>, key: string): (r: Option<string>)
    ensures r.Some? <==> key in m
    ensures key in m ==> r.value == m[key]
  {
    if key in m then Some(m[key]) else None
  }
}
