/** The administration router: every handler first checks the session for a
    token, then calls the identity provider's management API (an opaque
    response here) and renders a listing or surfaces the upstream status.
    The user listing is paginated locally, ten users per page. */
module Admin {
  import opened Common
  import opened Sessions
  import opened Tokens

  /** Name logged when no user can be read from the session. */
  const UnknownUser := "UnknownUser"

  /** Users shown on one page of the user listing. */
  const PerPage := 10

  /** Status the provider answers a successful listing with. */
  const Ok := 200

  /** Status the provider answers a successful scope creation with. */
  const Created := 201

  /** Status of the redirect that follows a successful scope creation. */
  const SeeOther := 303

  /** Where the browser goes after a scope mapping is created. */
  const ScopesPath := "/admin/scopes"

  // ---------------------------------------------------------------------
  // Current user, for the log lines

  /** The `preferred_username` claim of the session's token, or
      "UnknownUser" when there is no token, it does not decode, or it has
      no such claim. */
  function LoggedInUser(session: map<string, string>, decode: Decoder): (r: string)
    ensures r != UnknownUser ==>
              HasToken(session) && decode(session[TokenKey]).Some? &&
              decode(session[TokenKey]).value.preferredUsername == Some(r)
    ensures HasToken(session) && decode(session[TokenKey]).Some? &&
            decode(session[TokenKey]).value.preferredUsername.Some? ==>
              r == decode(session[TokenKey]).value.preferredUsername.value
  {
    if !HasToken(session) then UnknownUser
    else match decode(session[TokenKey])
      case None => UnknownUser
      case Some(claims) => claims.preferredUsername.GetOr(UnknownUser)
  }

  // ---------------------------------------------------------------------
  // Pagination arithmetic

  function Min(a: int, b: int): int { if a <= b then a else b }

  function Max(a: int, b: int): int { if a <= b then b else a }

  /** `ceil(n / 10)`: the least number of ten-item pages that hold `n` items. */
  function TotalPages(n: nat): (t: nat)
    ensures PerPage * t >= n
    ensures PerPage * (t - 1) < n || t == 0
    ensures t == 0 <==> n == 0
  {
    (n + PerPage - 1) / PerPage
  }

  /** Python's `s[lo:hi]` for non-negative bounds: both bounds are clamped to
      `len(s)` and an empty or inverted range gives the empty list. */
  function Slice<T>(s: seq<T>, lo: nat, hi: nat): (r: seq<T>)
    ensures |r| == Max(0, Min(hi, |s|) - lo)
    ensures forall i :: 0 <= i < |r| ==> r[i] == s[lo + i]
  {
    var l := Min(lo, |s|);
    var h := Min(hi, |s|);
    if h <= l then [] else s[l..h]
  }

  /** Python's `list(range(lo, hi))`. */
  function Range(lo: int, hi: int): (r: seq<int>)
    ensures |r| == Max(0, hi - lo)
    ensures forall i :: 0 <= i < |r| ==> r[i] == lo + i
    decreases hi - lo
  {
    if hi <= lo then [] else [lo] + Range(lo + 1, hi)
  }

  /** What the user listing template receives. */
  datatype Page<T> = Page(
    items: seq<T>,
    prevPage: Option<int>,
    nextPage: Option<int>,
    pages: seq<int>,
    currentPage: int)

  /** The page `page` (1-based) of `all`: its slice, the neighbouring page
      numbers and the list of every page number. */
  function Paginate<T>(all: seq<T>, page: int): (p: Page<T>)
    requires page >= 1
    // the slice holds the users at [(page-1)*10, min(page*10, n)), in order
    ensures |p.items| == Max(0, Min(page * PerPage, |all|) - (page - 1) * PerPage)
    ensures |p.items| <= PerPage
    ensures forall i :: 0 <= i < |p.items| ==> p.items[i] == all[(page - 1) * PerPage + i]
    ensures p.items == [] <==> page > TotalPages(|all|)
    // the previous page is offered on every page but the first
    ensures p.prevPage == None <==> page == 1
    ensures p.prevPage != None ==> p.prevPage.value == page - 1
    // the next page is offered exactly before the last page
    ensures p.nextPage == Some(page + 1) <==> page < TotalPages(|all|)
    ensures p.nextPage == None <==> page >= TotalPages(|all|)
    // the page numbers are exactly 1 .. ceil(n/10), in order
    ensures |p.pages| == TotalPages(|all|)
    ensures forall i :: 0 <= i < |p.pages| ==> p.pages[i] == i + 1
    ensures p.currentPage == page
  {
    var total := TotalPages(|all|);
    Page(
      Slice(all, (page - 1) * PerPage, page * PerPage),
      if page > 1 then Some(page - 1) else None,
      if page < total then Some(page + 1) else None,
      Range(1, total + 1),
      page)
  }

  /** The items of pages 1 .. k, one page after the other. */
  function PagesUpTo<T>(all: seq<T>, k: nat): seq<T>
  {
    if k == 0 then [] else PagesUpTo(all, k - 1) + Paginate(all, k).items
  }

  /** Pages 1 .. k together hold exactly the first min(10k, n) users. */
  lemma {:induction false} PagesUpToIsPrefix<T>(all: seq<T>, k: nat)
    ensures PagesUpTo(all, k) == all[..Min(PerPage * k, |all|)]
  {
    if k > 0 {
      PagesUpToIsPrefix(all, k - 1);
      var prefix := all[..Min(PerPage * (k - 1), |all|)];
      var items := Paginate(all, k).items;
      var whole := all[..Min(PerPage * k, |all|)];
      assert |prefix| + |items| == |whole|;
      forall i | 0 <= i < |whole|
        ensures (prefix + items)[i] == whole[i]
      {
        if i >= |prefix| {
          assert items[i - |prefix|] == all[(k - 1) * PerPage + (i - |prefix|)];
        }
      }
    }
  }

  /** Concatenating every page of the listing gives back the whole user list,
      in order. */
  lemma PagesCoverList<T>(all: seq<T>)
    ensures PagesUpTo(all, TotalPages(|all|)) == all
  {
    PagesUpToIsPrefix(all, TotalPages(|all|));
  }

  /** Every user appears on page i/10 + 1, at position i mod 10 of its slice. */
  lemma PageOfIndex<T>(all: seq<T>, i: nat)
    requires i < |all|
    ensures var p := Paginate(all, i / PerPage + 1);
            i % PerPage < |p.items| && p.items[i % PerPage] == all[i]
  {
    var page := i / PerPage + 1;
    assert (page - 1) * PerPage + i % PerPage == i;
  }

  // ---------------------------------------------------------------------
  // The upstream management API, as opaque responses

  /** A JSON document as `response.json()` returns it: an object with an
      optional `results` list, or some other JSON value. */
  datatype Json<T> = Object(results: Option<seq<T>>) | OtherJson

  /** An upstream response: its status, its body text, and what decoding the
      body as JSON gives (`None` when `response.json()` raises). */
  datatype Upstream<T> = Upstream(status: int, text: string, json: Option<Json<T>>)

  /** The fields posted to create a scope mapping. */
  datatype ScopeMapping = ScopeMapping(
    name: string, scopeName: string, description: string, expression: string)

  /** The form a browser submits to create a scope mapping. */
  datatype ScopeForm = ScopeForm(
    mappingName: string, scopeName: string, description: string, expression: string)

  /** The template a successful listing renders. */
  datatype Template = UsersHtml | GroupsHtml | RolesHtml | CreateScopeHtml

  /** What an administration handler answers. `InternalError` stands for an
      exception the handler does not catch (the framework answers 500). */
  datatype AdminResponse<T> =
    | Redirect(location: string, status: int)
    | HttpError(status: int, detail: string)
    | InternalError
    | UsersView(page: Page<T>)
    | ListView(template: Template, items: seq<T>)

  /** `data.get("results", [])` on a decoded body; a body that is not a
      JSON object has no `get` and raises. */
  function Results<T>(json: Json<T>): (r: Option<seq<T>>)
    ensures r == None <==> json.OtherJson?
    ensures json.Object? && json.results.Some? ==> r == json.results
    ensures json.Object? && json.results.None? ==> r == Some([])
  {
    match json
    case Object(results) => Some(results.GetOr([]))
    case OtherJson => None
  }

  /** Python's `str.isspace` for one character. */
  predicate IsSpace(c: char) {
    c == ' ' || '\t' <= c <= '\r' || '\U{1C}' <= c <= '\U{1F}' ||
    c == '\U{85}' || c == '\U{A0}' || c == '\U{1680}' || '\U{2000}' <= c <= '\U{200A}' ||
    c == '\U{2028}' || c == '\U{2029}' || c == '\U{202F}' || c == '\U{205F}' || c == '\U{3000}'
  }

  /** `not text.strip()`: the text is empty once whitespace is stripped. */
  predicate IsBlank(text: string) {
    forall i :: 0 <= i < |text| ==> IsSpace(text[i])
  }

  // ---------------------------------------------------------------------
  // Handlers

  /** GET /admin/users?page=N: the gate, the status check, then one page of
      the user list. */
  function AdminUsers<T>(session: map<string, string>, page: int, resp: Upstream<T>): (r: AdminResponse<T>)
    requires page >= 1
    ensures !HasToken(session) ==> r == Redirect(Root, TemporaryRedirect)
    ensures HasToken(session) && resp.status != Ok ==>
              r == HttpError(resp.status, "Error al consultar usuarios")
    ensures r.UsersView? <==>
              HasToken(session) && resp.status == Ok &&
              resp.json.Some? && resp.json.value.Object?
    ensures r.UsersView? ==> r.page == Paginate(resp.json.value.results.GetOr([]), page)
    // a 200 whose body does not decode, or is not a JSON object, raises
    ensures r.InternalError? <==>
              HasToken(session) && resp.status == Ok &&
              (resp.json.None? || resp.json == Some(OtherJson))
  {
    if !HasToken(session) then Redirect(Root, TemporaryRedirect)
    else if resp.status != Ok then HttpError(resp.status, "Error al consultar usuarios")
    else match resp.json
      case None => InternalError
      case Some(json) =>
        match Results(json)
        case None => InternalError
        case Some(all) => UsersView(Paginate(all, page))
  }

  /** The shared body of GET /admin/groups and GET /admin/roles: the gate,
      the status check, then the full `results` list. */
  function Listing<T>(session: map<string, string>, resp: Upstream<T>, template: Template, detail: string): (r: AdminResponse<T>)
    ensures !HasToken(session) ==> r == Redirect(Root, TemporaryRedirect)
    ensures HasToken(session) && resp.status != Ok ==> r == HttpError(resp.status, detail)
    ensures r.ListView? <==>
              HasToken(session) && resp.status == Ok &&
              resp.json.Some? && resp.json.value.Object?
    ensures r.ListView? ==>
              r.template == template && r.items == resp.json.value.results.GetOr([])
    // a 200 whose body does not decode, or is not a JSON object, raises
    ensures r.InternalError? <==>
              HasToken(session) && resp.status == Ok &&
              (resp.json.None? || resp.json == Some(OtherJson))
  {
    if !HasToken(session) then Redirect(Root, TemporaryRedirect)
    else if resp.status != Ok then HttpError(resp.status, detail)
    else match resp.json
      case None => InternalError
      case Some(json) =>
        match Results(json)
        case None => InternalError
        case Some(items) => ListView(template, items)
  }

  /** GET /admin/groups. */
  function AdminGroups<T>(session: map<string, string>, resp: Upstream<T>): (r: AdminResponse<T>)
    ensures !HasToken(session) ==> r == Redirect(Root, TemporaryRedirect)
    ensures HasToken(session) && resp.status != Ok ==>
              r == HttpError(resp.status, "Error al consultar grupos")
    ensures r.ListView? <==>
              HasToken(session) && resp.status == Ok &&
              resp.json.Some? && resp.json.value.Object?
    ensures r.ListView? ==>
              r.template == GroupsHtml && r.items == resp.json.value.results.GetOr([])
    // a 200 whose body does not decode, or is not a JSON object, raises
    ensures r.InternalError? <==>
              HasToken(session) && resp.status == Ok &&
              (resp.json.None? || resp.json == Some(OtherJson))
  {
    Listing(session, resp, GroupsHtml, "Error al consultar grupos")
  }

  /** GET /admin/roles. */
  function AdminRoles<T>(session: map<string, string>, resp: Upstream<T>): (r: AdminResponse<T>)
    ensures !HasToken(session) ==> r == Redirect(Root, TemporaryRedirect)
    ensures HasToken(session) && resp.status != Ok ==>
              r == HttpError(resp.status, "Error al consultar roles")
    ensures r.ListView? <==>
              HasToken(session) && resp.status == Ok &&
              resp.json.Some? && resp.json.value.Object?
    ensures r.ListView? ==>
              r.template == RolesHtml && r.items == resp.json.value.results.GetOr([])
    // a 200 whose body does not decode, or is not a JSON object, raises
    ensures r.InternalError? <==>
              HasToken(session) && resp.status == Ok &&
              (resp.json.None? || resp.json == Some(OtherJson))
  {
    Listing(session, resp, RolesHtml, "Error al consultar roles")
  }

  /** GET /admin/scopes: never looks at the status, and reads a blank or
      undecodable body as an empty object. */
  function AdminScopes<T>(session: map<string, string>, resp: Upstream<T>): (r: AdminResponse<T>)
    ensures !HasToken(session) ==> r == Redirect(Root, TemporaryRedirect)
    ensures !r.HttpError?
    ensures HasToken(session) && (IsBlank(resp.text) || resp.json.None?) ==>
              r == ListView(CreateScopeHtml, [])
    ensures HasToken(session) && !IsBlank(resp.text) && resp.json.Some? && resp.json.value.Object? ==>
              r == ListView(CreateScopeHtml, resp.json.value.results.GetOr([]))
    ensures r.InternalError? <==>
              HasToken(session) && !IsBlank(resp.text) && resp.json == Some(OtherJson)
  {
    if !HasToken(session) then Redirect(Root, TemporaryRedirect)
    else
      var data := if IsBlank(resp.text) || resp.json.None? then Object(None) else resp.json.value;
      match Results(data)
      case None => InternalError
      case Some(scopes) => ListView(CreateScopeHtml, scopes)
  }

  /** POST /admin/scopes: posts the form, renamed as the provider expects,
      and redirects to the listing only when the provider answers 201.
      `post` is the provider's answer to a posted mapping. */
  function CreateScope<T>(session: map<string, string>, form: ScopeForm, post: ScopeMapping -> int): (r: AdminResponse<T>)
    ensures !HasToken(session) ==> r == Redirect(Root, TemporaryRedirect)
    ensures HasToken(session) ==>
              var status := post(ScopeMapping(form.mappingName, form.scopeName, form.description, form.expression));
              (r == Redirect(ScopesPath, SeeOther) <==> status == Created) &&
              (status != Created ==> r == HttpError(status, "Error al crear scope"))
  {
    if !HasToken(session) then Redirect(Root, TemporaryRedirect)
    else
      var status := post(ScopeMapping(form.mappingName, form.scopeName, form.description, form.expression));
      if status != Created then HttpError(status, "Error al crear scope")
      else Redirect(ScopesPath, SeeOther)
  }

  /** Without a token, no handler's answer depends on what the provider
      would have answered: none of them calls it. */
  lemma NoTokenNoUpstream<T>(session: map<string, string>, page: int,
                             r1: Upstream<T>, r2: Upstream<T>, form: ScopeForm,
                             p1: ScopeMapping -> int, p2: ScopeMapping -> int)
    requires !HasToken(session) && page >= 1
    ensures AdminUsers(session, page, r1) == AdminUsers(session, page, r2)
    ensures AdminGroups(session, r1) == AdminGroups(session, r2)
    ensures AdminRoles(session, r1) == AdminRoles(session, r2)
    ensures AdminScopes(session, r1) == AdminScopes(session, r2)
    ensures CreateScope<T>(session, form, p1) == CreateScope<T>(session, form, p2)
  {
  }
}
