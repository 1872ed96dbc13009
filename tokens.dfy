/** The claims read from a bearer token's payload. Decoding is done without
    signature verification by a foreign library, so the model receives it as
    an opaque function from token text to optional claims. */
module Tokens {
  import opened Common

  /** The claims a handler reads; an absent claim is `None`. */
  datatype Claims = Claims(
    exp: Option<int>,
    email: Option<string>,
    emailVerified: Option<bool>,
    name: Option<string>,
    givenName: Option<string>,
    preferredUsername: Option<string>,
    nickname: Option<string>,
    groups: Option<seq<string>>,
    uid: Option<string>)

  /** Decoding a token: `None` when the library raises an invalid-token error. */
  type Decoder = string -> Option<Claims>
}
