/** The dashboard router: a session-gated page that checks the token's
    expiry and e-mail claim and then picks a view by group membership, and
    an internal API route gated on the token alone. Each handler is a
    method that changes the session in place, specified by a pure function
    of the session before the request. */
module Dashboard {
  import opened Common
  import opened Sessions
  import opened Tokens

  /** Group names that open the administrator view. */
  const AdminGroup := "Administrador"
  const ProviderAdminGroup := "authentik Admins"

  /** Group name that opens the developer view. */
  const DeveloperGroup := "Desarrollador"

  /** Status of both internal API refusals. */
  const Unauthorized := 401

  /** Message of the internal API's successful answer. */
  const AccessGranted := "Acceso a la API interna permitido"

  datatype Role = AdminView | DeveloperView | GuestView

  /** The claims handed to the dashboard templates. */
  datatype UserInfo = UserInfo(
    email: Option<string>,
    emailVerified: Option<bool>,
    name: Option<string>,
    givenName: Option<string>,
    preferredUsername: Option<string>,
    nickname: Option<string>,
    groups: Option<seq<string>>,
    uid: Option<string>)

  /** What GET /dashboard answers. `InternalError` stands for the exception
      raised when the token has no `groups` claim (`x in None`). */
  datatype DashboardResponse =
    | Redirect(location: string, status: int)
    | View(role: Role, info: UserInfo)
    | InternalError

  /** What GET /internal-api answers. */
  datatype ApiResponse =
    | HttpError(status: int, detail: string)
    | Granted(message: string, token: string)

  /** The view chosen by group membership: administrator groups win over
      the developer group, which wins over the guest default. */
  function RoleFor(groups: seq<string>): (r: Role)
    ensures r == AdminView <==> AdminGroup in groups || ProviderAdminGroup in groups
    ensures r == DeveloperView <==>
              AdminGroup !in groups && ProviderAdminGroup !in groups && DeveloperGroup in groups
    ensures r == GuestView <==>
              AdminGroup !in groups && ProviderAdminGroup !in groups && DeveloperGroup !in groups
  {
    if AdminGroup in groups || ProviderAdminGroup in groups then AdminView
    else if DeveloperGroup in groups then DeveloperView
    else GuestView
  }

  /** A rank for views: a higher one shows more. */
  function Rank(r: Role): nat {
    match r
    case GuestView => 0
    case DeveloperView => 1
    case AdminView => 2
  }

  /** Joining more groups never lowers the view a user gets. */
  lemma MoreGroupsNeverLowerRole(groups: seq<string>, more: seq<string>)
    ensures Rank(RoleFor(groups)) <= Rank(RoleFor(groups + more))
    ensures Rank(RoleFor(more)) <= Rank(RoleFor(groups + more))
  {
    var all := groups + more;
    assert forall g :: g in groups ==> g in all;
    assert forall g :: g in more ==> g in all;
  }

  function InfoOf(c: Claims): UserInfo {
    UserInfo(c.email, c.emailVerified, c.name, c.givenName,
             c.preferredUsername, c.nickname, c.groups, c.uid)
  }

  /** Whether the claims are expired at `now`; a missing `exp` reads as 0. */
  predicate Expired(c: Claims, now: int) {
    now >= c.exp.GetOr(0)
  }

  /** GET /dashboard, as a function of the session before the request. */
  function DashboardSpec(session: map<string, string>, decode: Decoder, now: int): (h: Handled<DashboardResponse>)
    // no token: back to the login page, session untouched
    ensures !HasToken(session) ==> h == Handled(Redirect(Root, TemporaryRedirect), session)
    // an undecodable token: session cleared, back to the login page
    ensures HasToken(session) && decode(session[TokenKey]).None? ==>
              h == Handled(Redirect(Root, TemporaryRedirect), map[])
    // an expired token: session cleared, back to the login page
    ensures HasToken(session) && decode(session[TokenKey]).Some? &&
            Expired(decode(session[TokenKey]).value, now) ==>
              h == Handled(Redirect(Root, TemporaryRedirect), map[])
    // a live token without an e-mail: back to the login page, session kept
    ensures HasToken(session) && decode(session[TokenKey]).Some? &&
            !Expired(decode(session[TokenKey]).value, now) &&
            !Truthy(decode(session[TokenKey]).value.email) ==>
              h == Handled(Redirect(Root, TemporaryRedirect), session)
    // the session is either kept whole or emptied, never edited
    ensures h.session == session || h.session == map[]
    // a view is shown only for a decodable, live token with an e-mail,
    // and it is the view its groups select
    ensures h.response.View? <==>
              HasToken(session) && decode(session[TokenKey]).Some? &&
              !Expired(decode(session[TokenKey]).value, now) &&
              Truthy(decode(session[TokenKey]).value.email) &&
              decode(session[TokenKey]).value.groups.Some?
    // a live token with an e-mail but no `groups` claim raises, session kept
    ensures h.response.InternalError? <==>
              HasToken(session) && decode(session[TokenKey]).Some? &&
              !Expired(decode(session[TokenKey]).value, now) &&
              Truthy(decode(session[TokenKey]).value.email) &&
              decode(session[TokenKey]).value.groups.None?
    ensures h.response.InternalError? ==> h.session == session
    ensures h.response.View? ==>
              var c := decode(session[TokenKey]).value;
              h.response == View(RoleFor(c.groups.value), InfoOf(c)) && h.session == session
  {
    if !HasToken(session) then Handled(Redirect(Root, TemporaryRedirect), session)
    else match decode(session[TokenKey])
      case None => Handled(Redirect(Root, TemporaryRedirect), map[])
      case Some(c) =>
        if Expired(c, now) then Handled(Redirect(Root, TemporaryRedirect), map[])
        else if !Truthy(c.email) then Handled(Redirect(Root, TemporaryRedirect), session)
        else match c.groups
          case None => Handled(InternalError, session)
          case Some(groups) => Handled(View(RoleFor(groups), InfoOf(c)), session)
  }

  /** An expired token is never shown a view, whatever its claims say. */
  lemma ExpiredNeverViews(session: map<string, string>, decode: Decoder, now: int, later: int)
    requires HasToken(session) && decode(session[TokenKey]).Some?
    requires Expired(decode(session[TokenKey]).value, now) && later >= now
    ensures DashboardSpec(session, decode, later) == Handled(Redirect(Root, TemporaryRedirect), map[])
  {
  }

  /** GET /dashboard as a handler that changes the session in place. */
  method Dashboard(session: Session, decode: Decoder, now: int) returns (r: DashboardResponse)
    modifies session
    ensures Handled(r, session.data) == DashboardSpec(old(session.data), decode, now)
  {
    var token := session.Lookup(TokenKey);
    if !Truthy(token) {
      return Redirect(Root, TemporaryRedirect);
    }
    var decoded := decode(token.value);
    if decoded.None? {
      session.Clear();
      return Redirect(Root, TemporaryRedirect);
    }
    var claims := decoded.value;
    if now >= claims.exp.GetOr(0) {
      session.Clear();
      return Redirect(Root, TemporaryRedirect);
    }
    var info := InfoOf(claims);
    if !Truthy(info.email) {
      return Redirect(Root, TemporaryRedirect);
    }
    if info.groups.None? {
      return InternalError;
    }
    r := View(RoleFor(info.groups.value), info);
  }

  /** GET /internal-api, as a function of the session before the request. */
  function InternalApiSpec(session: map<string, string>, decode: Decoder): (h: Handled<ApiResponse>)
    ensures !HasToken(session) ==>
              h == Handled(HttpError(Unauthorized, "Token no encontrado en la sesión"), session)
    ensures HasToken(session) && decode(session[TokenKey]).None? ==>
              h == Handled(HttpError(Unauthorized, "Token inválido o expirado"), map[])
    // a decodable token is handed back unchanged, whatever its expiry
    ensures h.response.Granted? <==> HasToken(session) && decode(session[TokenKey]).Some?
    ensures h.response.Granted? ==>
              h.response == Granted(AccessGranted, session[TokenKey]) && h.session == session
  {
    if !HasToken(session) then
      Handled(HttpError(Unauthorized, "Token no encontrado en la sesión"), session)
    else if decode(session[TokenKey]).None? then
      Handled(HttpError(Unauthorized, "Token inválido o expirado"), map[])
    else
      Handled(Granted(AccessGranted, session[TokenKey]), session)
  }

  /** The internal API does not look at `exp`: its answer is the same at
      every instant, even when the dashboard would refuse the token as
      expired. */
  lemma InternalApiIgnoresExpiry(session: map<string, string>, decode: Decoder, now: int)
    requires HasToken(session) && decode(session[TokenKey]).Some?
    requires Expired(decode(session[TokenKey]).value, now)
    ensures InternalApiSpec(session, decode).response == Granted(AccessGranted, session[TokenKey])
    ensures DashboardSpec(session, decode, now).response.Redirect?
  {
  }

  /** GET /internal-api as a handler that changes the session in place. */
  method InternalApi(session: Session, decode: Decoder) returns (r: ApiResponse)
    modifies session
    ensures Handled(r, session.data) == InternalApiSpec(old(session.data), decode)
  {
    var token := session.Lookup(TokenKey);
    if !Truthy(token) {
      return HttpError(Unauthorized, "Token no encontrado en la sesión");
    }
    if decode(token.value).None? {
      session.Clear();
      return HttpError(Unauthorized, "Token inválido o expirado");
    }
    r := Granted(AccessGranted, token.value);
  }
}
