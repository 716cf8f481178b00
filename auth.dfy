/**
 * The demo authentication routes (server/routes/auth.ts): a fixed user table, and a
 * `refreshStore` map of issued refresh tokens that login fills and logout empties.
 *
 * Token signing and verification (`jsonwebtoken`) are not modelled: a `Signer` gives the
 * token text for a claim set and key, a `Verifier` gives back the claims of a token or
 * `None` where `jwt.verify` throws (bad signature, expired, garbled).
 */
module Auth {
  import opened Wrappers
  import Seqs
  import Text

  datatype User = User(id: string, email: string, role: string, name: string)

  /** Which of the two signing secrets a token is made or checked with. */
  datatype KeyKind = AccessKey | RefreshKey

  /** The claims of a token: its subject, and the role for access tokens. */
  datatype Claims = Claims(sub: string, role: Option<string>)

  type Signer = (Claims, KeyKind) -> string
  type Verifier = (string, KeyKind) -> Option<Claims>

  datatype Session = Session(accessToken: string, refreshToken: string, user: User)

  const InvalidCredentialsText := "Invalid credentials"
  const UnauthorizedText := "Unauthorized"
  const UserNotFoundText := "User not found"
  const InvalidRefreshText := "Invalid refresh token"

  /** The demo accounts; their roles are viewer, curator and admin. */
  function Users(): seq<User> {
    [ User("1", "viewer@example.com", "viewer", "Viewer V."),
      User("2", "curator@example.com", "curator", "Curator C."),
      User("3", "admin@example.com", "admin", "Admin A.") ]
  }

  function HasEmail(email: string): User -> bool {
    (u: User) => u.email == email
  }

  function HasId(id: string): User -> bool {
    (u: User) => u.id == id
  }

  /** `users.find(u => u.email === email)`; a missing email matches nobody. */
  function UserByEmail(email: Option<string>): (r: Option<User>)
    ensures r.Some? <==> email.Some? && exists u :: u in Users() && u.email == email.value
    ensures r.Some? ==> r.value in Users() && r.value.email == email.value
  {
    match email
    case None => None
    case Some(e) =>
      assert forall u :: HasEmail(e)(u) <==> u.email == e;
      Seqs.Find(Users(), HasEmail(e))
  }

  /** `users.find(u => u.id === decoded.sub)`. */
  function UserById(id: string): (r: Option<User>)
    ensures r.Some? <==> exists u :: u in Users() && u.id == id
    ensures r.Some? ==> r.value in Users() && r.value.id == id
  {
    assert forall u :: HasId(id)(u) <==> u.id == id;
    Seqs.Find(Users(), HasId(id))
  }

  /** The two tokens of a successful login: an access token on {sub, role}, a refresh token on {sub}. */
  function IssueSession(email: Option<string>, sign: Signer): (r: Reply<Session>)
    ensures r.Ok? <==> email.Some? && exists u :: u in Users() && u.email == email.value
    ensures r.Fail? ==> r == Fail(Unauthorized, InvalidCredentialsText)
    ensures r.Ok? ==> && r.value.user in Users() && Some(r.value.user.email) == email
                      && r.value.accessToken == sign(Claims(r.value.user.id, Some(r.value.user.role)), AccessKey)
                      && r.value.refreshToken == sign(Claims(r.value.user.id, None), RefreshKey)
  {
    match UserByEmail(email)
    case None => Fail(Unauthorized, InvalidCredentialsText)
    case Some(u) => Ok(Session(sign(Claims(u.id, Some(u.role)), AccessKey), sign(Claims(u.id, None), RefreshKey), u))
  }

  // ---------------------------------------------------------------------------
  // The bearer header of `me`

  /** `\s` of JavaScript regular expressions. */
  predicate IsSpace(c: char) {
    || c == ' ' || c == '\t' || c == '\n' || c == '\r' || c == '\U{B}' || c == '\U{C}'
    || c == '\U{A0}' || c == '\U{1680}' || '\U{2000}' <= c <= '\U{200A}'
    || c == '\U{2028}' || c == '\U{2029}' || c == '\U{202F}' || c == '\U{205F}'
    || c == '\U{3000}' || c == '\U{FEFF}'
  }

  /** What remains after a run of leading whitespace. */
  function DropSpaces(s: string): (r: string)
    ensures |r| <= |s| && r == s[|s| - |r|..]
    ensures forall i :: 0 <= i < |s| - |r| ==> IsSpace(s[i])
    ensures r != [] ==> !IsSpace(r[0])
  {
    if s != [] && IsSpace(s[0]) then DropSpaces(s[1..]) else s
  }

  /** `auth.replace(/^Bearer\s+/i, "")`: drops a leading "Bearer", in any letter case, with the whitespace after it. */
  function StripBearer(header: string): (token: string)
    ensures |token| <= |header| && token == header[|header| - |token|..]
    ensures token != header <==> |header| > 6 && Text.Lower(header[..6]) == "bearer" && IsSpace(header[6])
    ensures token != header ==> && |header| - |token| >= 7
                                && (forall i :: 6 <= i < |header| - |token| ==> IsSpace(header[i]))
                                && (token == [] || !IsSpace(token[0]))
  {
    if |header| > 6 && Text.Lower(header[..6]) == "bearer" && IsSpace(header[6]) then
      DropSpaces(header[6..])
    else
      header
  }

  /** The header a client sends with a token: "Bearer " followed by the token is read back as that token. */
  lemma StripBearerOfBearer(token: string)
    requires token == [] || !IsSpace(token[0])
    ensures StripBearer("Bearer " + token) == token
  {
    var h := "Bearer " + token;
    assert h[..6] == "Bearer";
    var low := Text.Lower("Bearer");
    assert |low| == 6 && low[0] == 'b' && low[1] == 'e' && low[2] == 'a' && low[3] == 'r' && low[4] == 'e' && low[5] == 'r';
    assert low == "bearer";
    assert IsSpace(h[6]);
    assert h[6..] == " " + token;
    assert (" " + token)[1..] == token;
    assert DropSpaces(token) == token;
  }

  /** `me`: 401 when the access token does not verify, 404 when its subject is no user, otherwise that user. */
  function Me(authorization: Option<string>, verify: Verifier): (r: Reply<User>)
    ensures var claims := verify(StripBearer(authorization.GetOr("")), AccessKey);
      && (r == Fail(Unauthorized, UnauthorizedText) <==> claims.None?)
      && (r == Fail(NotFound, UserNotFoundText) <==> claims.Some? && forall u :: u in Users() ==> u.id != claims.value.sub)
      && (r.Ok? ==> claims.Some? && r.value in Users() && r.value.id == claims.value.sub)
    ensures var claims := verify(StripBearer(authorization.GetOr("")), AccessKey);
      claims.Some? && UserById(claims.value.sub).Some? ==> r == Ok(UserById(claims.value.sub).value)
    ensures r.Fail? ==> r.status == Unauthorized || r.status == NotFound
  {
    var token := StripBearer(authorization.GetOr(""));
    match verify(token, AccessKey)
    case None => Fail(Unauthorized, UnauthorizedText)
    case Some(claims) =>
      match UserById(claims.sub)
      case None => Fail(NotFound, UserNotFoundText)
      case Some(u) => Ok(u)
  }

  // ---------------------------------------------------------------------------
  // The refresh-token store

  /** A refresh token as the handlers see it: absent, or the empty string, counts as missing. */
  predicate Given(token: Option<string>) {
    token.Some? && token.value != ""
  }

  /**
   * `refresh`: 401 unless the token is recorded in the store, then 401 unless it verifies
   * and its subject is a user; otherwise a new access token for that user. The stored
   * token is kept (no rotation).
   */
  function Refresh(store: map<string, string>, token: Option<string>, verify: Verifier, sign: Signer): (r: Reply<string>)
    ensures !(Given(token) && token.value in store) ==> r == Fail(Unauthorized, InvalidRefreshText)
    ensures r.Fail? ==> r == Fail(Unauthorized, InvalidRefreshText)
    ensures r.Ok? <==> && Given(token) && token.value in store
                       && verify(token.value, RefreshKey).Some?
                       && UserById(verify(token.value, RefreshKey).value.sub).Some?
    ensures r.Ok? ==> var u := UserById(verify(token.value, RefreshKey).value.sub).value;
                      r.value == sign(Claims(u.id, Some(u.role)), AccessKey)
  {
    if !Given(token) || token.value !in store then
      Fail(Unauthorized, InvalidRefreshText)
    else
      match verify(token.value, RefreshKey)
      case None => Fail(Unauthorized, InvalidRefreshText)
      case Some(claims) =>
        match UserById(claims.sub)
        case None => Fail(Unauthorized, InvalidRefreshText)
        case Some(u) => Ok(sign(Claims(u.id, Some(u.role)), AccessKey))
  }

  /** `logout`'s effect on the store: the given token is forgotten, if there is one. */
  function Revoke(store: map<string, string>, token: Option<string>): (r: map<string, string>)
    ensures Given(token) ==> token.value !in r
    ensures forall t :: t in r <==> t in store && !(Given(token) && t == token.value)
    ensures forall t :: t in r ==> r[t] == store[t]
  {
    if Given(token) then store - {token.value} else store
  }

  /** Logging out twice is logging out once. */
  lemma RevokeIdempotent(store: map<string, string>, token: Option<string>)
    ensures Revoke(Revoke(store, token), token) == Revoke(store, token)
  {
  }

  /** After logout, the revoked token is refused by refresh, whatever the verifier says. */
  lemma RefreshAfterLogout(store: map<string, string>, token: Option<string>, verify: Verifier, sign: Signer)
    ensures Refresh(Revoke(store, token), token, verify, sign) == Fail(Unauthorized, InvalidRefreshText)
  {
  }

  /** The signer and verifier agree: a token verifies, under its own key, to the claims it was signed with. */
  ghost predicate Faithful(sign: Signer, verify: Verifier) {
    forall c: Claims, k: KeyKind {:trigger sign(c, k)} ::
      verify(sign(c, k), k) == Some(c) && sign(c, k) != "" && !IsSpace(sign(c, k)[0])
  }

  /** Login then refresh: the refresh token recorded at login yields an access token for the same user and role. */
  lemma LoginThenRefresh(store: map<string, string>, email: Option<string>, sign: Signer, verify: Verifier)
    requires Faithful(sign, verify)
    requires IssueSession(email, sign).Ok?
    ensures var s := IssueSession(email, sign).value;
      Refresh(store[s.refreshToken := s.user.id], Some(s.refreshToken), verify, sign)
        == Ok(sign(Claims(s.user.id, Some(s.user.role)), AccessKey))
  {
    var s := IssueSession(email, sign).value;
    assert verify(s.refreshToken, RefreshKey) == Some(Claims(s.user.id, None));
    assert UserById(s.user.id) == Some(s.user) by {
      var u := UserById(s.user.id).value;
      assert u.id == s.user.id;
      assert Users()[0].id == "1" && Users()[1].id == "2" && Users()[2].id == "3";
    }
  }

  /** Login then `me` with the access token as a bearer header returns the same user. */
  lemma LoginThenMe(email: Option<string>, sign: Signer, verify: Verifier)
    requires Faithful(sign, verify)
    requires IssueSession(email, sign).Ok?
    ensures var s := IssueSession(email, sign).value;
      Me(Some("Bearer " + s.accessToken), verify) == Ok(s.user)
  {
    var s := IssueSession(email, sign).value;
    StripBearerOfBearer(s.accessToken);
    assert verify(s.accessToken, AccessKey) == Some(Claims(s.user.id, Some(s.user.role)));
    assert UserById(s.user.id) == Some(s.user) by {
      assert Users()[0].id == "1" && Users()[1].id == "2" && Users()[2].id == "3";
    }
  }

  class AuthService {
    /** Issued refresh tokens, each mapped to the id of the user it was issued to. */
    var refreshStore: map<string, string>

    constructor ()
      ensures refreshStore == map[]
    {
      refreshStore := map[];
    }

    /** `login`: the password is never consulted; a known email gets both tokens and its refresh token is recorded. */
    method Login(email: Option<string>, password: Option<string>, sign: Signer) returns (r: Reply<Session>)
      modifies this
      ensures r == IssueSession(email, sign)
      ensures r.Fail? ==> refreshStore == old(refreshStore)
      ensures r.Ok? ==> refreshStore == old(refreshStore)[r.value.refreshToken := r.value.user.id]
    {
      var found := UserByEmail(email);
      if found.None? {
        return Fail(Unauthorized, InvalidCredentialsText);
      }
      var user := found.value;
      var accessToken := sign(Claims(user.id, Some(user.role)), AccessKey);
      var refreshToken := sign(Claims(user.id, None), RefreshKey);
      refreshStore := refreshStore[refreshToken := user.id];
      r := Ok(Session(accessToken, refreshToken, user));
    }

    /** `refresh` reads the store and never changes it. */
    method RefreshToken(token: Option<string>, verify: Verifier, sign: Signer) returns (r: Reply<string>)
      ensures r == Refresh(refreshStore, token, verify, sign)
    {
      if token.None? || token.value == "" || token.value !in refreshStore {
        return Fail(Unauthorized, InvalidRefreshText);
      }
      var claims := verify(token.value, RefreshKey);
      if claims.None? {
        return Fail(Unauthorized, InvalidRefreshText);
      }
      var user := UserById(claims.value.sub);
      if user.None? {
        return Fail(Unauthorized, InvalidRefreshText);
      }
      r := Ok(sign(Claims(user.value.id, Some(user.value.role)), AccessKey));
    }

    /** `logout`: forgets the given token, if any, and always answers success. */
    method Logout(token: Option<string>) returns (success: bool)
      modifies this
      ensures success
      ensures refreshStore == Revoke(old(refreshStore), token)
    {
      if token.Some? && token.value != "" {
        refreshStore := refreshStore - {token.value};
      }
      success := true;
    }
  }
}
