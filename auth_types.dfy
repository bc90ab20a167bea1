/** The credential types of src/types/auth.ts and their JSON form. */
module AuthTypes {
  import opened Common
  import Json

  /** The `UserRole` enum: exactly three string-valued members. */
  datatype UserRole = SUPER_ADMIN | ADMIN | USER

  function RoleName(r: UserRole): string {
    match r
    case SUPER_ADMIN => "SUPER_ADMIN"
    case ADMIN => "ADMIN"
    case USER => "USER"
  }

  function ParseRole(s: string): (r: Option<UserRole>)
    ensures r.Some? ==> RoleName(r.value) == s
  {
    if s == "SUPER_ADMIN" then Some(SUPER_ADMIN)
    else if s == "ADMIN" then Some(ADMIN)
    else if s == "USER" then Some(USER)
    else None
  }

  lemma RoleNameRoundTrip(r: UserRole)
    ensures ParseRole(RoleName(r)) == Some(r)
  {
  }

  /** The role test `user_role === "ADMIN"` shared by the gate, login and isAuthenticated.
      The role travels as the string the backend sent, so it is a string here. */
  predicate IsAdmin(role: string) {
    role == "ADMIN"
  }

  /** Of the three roles only ADMIN passes: SUPER_ADMIN is refused like USER. */
  lemma OnlyAdminPasses(r: UserRole)
    ensures IsAdmin(RoleName(r)) <==> r == ADMIN
    ensures ParseRole("ADMIN") == Some(ADMIN)
  {
  }

  datatype LoginRequest = LoginRequest(email: string, password: string, tenant_slug: string)

  /** The body posted to the refresh proxy. */
  datatype RefreshTokenRequest = RefreshTokenRequest(refresh_token: string)

  /** A token bundle as the backend sends it. The tenant fields are optional. The two lifetimes
      are relative seconds; they are optional on the wire, and here they are always present. */
  datatype Token = Token(
    access_token: string,
    refresh_token: string,
    token_type: string,
    user_role: string,
    tenant_id: Option<int>,
    tenant_name: Option<string>,
    tenant_slug: Option<string>,
    user_id: int,
    expires_in: nat,
    refresh_token_expires_in: nat)

  /** `TokenData extends Token`: the whole Token plus two absolute millisecond timestamps. */
  datatype TokenData = TokenData(token: Token, expires_at: int, refresh_token_expires_at: int)

  /** `if (token.tenant_id)`: an absent id and the id 0 are both falsy. */
  predicate TenantIdTruthy(id: Option<int>) {
    id.Some? && id.value != 0
  }

  // ---------------------------------------------------------------------------------------------
  // JSON form of a TokenData (what the cookies hold)

  function OptInt(o: Option<int>): Json.Value {
    if o.Some? then Json.Num(o.value) else Json.Null
  }

  function OptStr(o: Option<string>): Json.Value {
    if o.Some? then Json.Str(o.value) else Json.Null
  }

  function ToMembers(d: TokenData): (ms: seq<Json.Member>)
    ensures |ms| == 12
  {
    var t := d.token;
    [ ("access_token", Json.Str(t.access_token)),
      ("refresh_token", Json.Str(t.refresh_token)),
      ("token_type", Json.Str(t.token_type)),
      ("user_role", Json.Str(t.user_role)),
      ("tenant_id", OptInt(t.tenant_id)),
      ("tenant_name", OptStr(t.tenant_name)),
      ("tenant_slug", OptStr(t.tenant_slug)),
      ("user_id", Json.Num(t.user_id)),
      ("expires_in", Json.Num(t.expires_in)),
      ("refresh_token_expires_in", Json.Num(t.refresh_token_expires_in)),
      ("expires_at", Json.Num(d.expires_at)),
      ("refresh_token_expires_at", Json.Num(d.refresh_token_expires_at)) ]
  }

  function StrField(ms: seq<Json.Member>, i: nat, key: string): (r: Option<string>)
    ensures r.Some? ==> i < |ms| && ms[i] == (key, Json.Str(r.value))
  {
    if i < |ms| && ms[i].0 == key && ms[i].1.Str? then Some(ms[i].1.s) else None
  }

  function IntField(ms: seq<Json.Member>, i: nat, key: string): (r: Option<int>)
    ensures r.Some? ==> i < |ms| && ms[i] == (key, Json.Num(r.value))
  {
    if i < |ms| && ms[i].0 == key && ms[i].1.Num? then Some(ms[i].1.n) else None
  }

  function NatField(ms: seq<Json.Member>, i: nat, key: string): (r: Option<nat>)
    ensures r.Some? ==> i < |ms| && ms[i] == (key, Json.Num(r.value))
  {
    if i < |ms| && ms[i].0 == key && ms[i].1.Num? && ms[i].1.n >= 0 then Some(ms[i].1.n) else None
  }

  function OptIntField(ms: seq<Json.Member>, i: nat, key: string): (r: Option<Option<int>>)
    ensures r.Some? ==> i < |ms| && ms[i] == (key, OptInt(r.value))
  {
    if i < |ms| && ms[i].0 == key then
      match ms[i].1
      case Null => Some(None)
      case Num(n) => Some(Some(n))
      case Str(_) => None
    else None
  }

  function OptStrField(ms: seq<Json.Member>, i: nat, key: string): (r: Option<Option<string>>)
    ensures r.Some? ==> i < |ms| && ms[i] == (key, OptStr(r.value))
  {
    if i < |ms| && ms[i].0 == key then
      match ms[i].1
      case Null => Some(None)
      case Str(s) => Some(Some(s))
      case Num(_) => None
    else None
  }

  function FromMembers(ms: seq<Json.Member>): Option<TokenData> {
    if |ms| != 12 then None
    else
      var at :- StrField(ms, 0, "access_token");
      var rt :- StrField(ms, 1, "refresh_token");
      var tt :- StrField(ms, 2, "token_type");
      var role :- StrField(ms, 3, "user_role");
      var tid :- OptIntField(ms, 4, "tenant_id");
      var tname :- OptStrField(ms, 5, "tenant_name");
      var tslug :- OptStrField(ms, 6, "tenant_slug");
      var uid :- IntField(ms, 7, "user_id");
      var ei :- NatField(ms, 8, "expires_in");
      var rei :- NatField(ms, 9, "refresh_token_expires_in");
      var ea :- IntField(ms, 10, "expires_at");
      var rea :- IntField(ms, 11, "refresh_token_expires_at");
      Some(TokenData(Token(at, rt, tt, role, tid, tname, tslug, uid, ei, rei), ea, rea))
  }

  /** `JSON.stringify(tokenData)` */
  function Serialize(d: TokenData): string {
    Json.Encode(ToMembers(d))
  }

  /** `JSON.parse(text) as TokenData`; `None` when the text is not a serialised TokenData. */
  function Parse(text: string): Option<TokenData> {
    var ms :- Json.Decode(text);
    FromMembers(ms)
  }

  lemma FromToMembers(d: TokenData)
    ensures FromMembers(ToMembers(d)) == Some(d)
  {
  }

  /** A stored bundle reads back as exactly the bundle that was stored, every field kept. */
  lemma ParseSerialize(d: TokenData)
    ensures Parse(Serialize(d)) == Some(d)
  {
    Json.DecodeEncode(ToMembers(d));
    FromToMembers(d);
  }

  /** The members a bundle is read from are exactly the members it serialises to. */
  lemma FromMembersInverse(ms: seq<Json.Member>)
    ensures FromMembers(ms).Some? ==> ToMembers(FromMembers(ms).value) == ms
  {
    if FromMembers(ms).Some? {
      var t := ToMembers(FromMembers(ms).value);
      assert forall i | 0 <= i < 12 :: t[i] == ms[i];
    }
  }

  /** The model's reading of a cookie: a text is read as the bundle `d` exactly when it is the
      JSON text of `d`'s twelve members, in that order. Any other text, the empty object
      included, reads as malformed. */
  lemma ParseIff(text: string, d: TokenData)
    ensures Parse(text) == Some(d) <==> Json.Decode(text) == Some(ToMembers(d))
  {
    if Json.Decode(text).Some? {
      FromMembersInverse(Json.Decode(text).value);
    }
    FromToMembers(d);
  }

  /** In particular, text that is not JSON and JSON whose members are not the twelve of a
      bundle are malformed. */
  lemma MalformedTexts(text: string)
    requires Json.Decode(text).None? || |Json.Decode(text).value| != 12
    ensures Parse(text) == None
  {
  }
}
