/** src/app/auth/login/page.tsx, without its rendering: the form schema, the redirect target
    and the branching of `onSubmit`. */
module LoginPage {
  import opened Common
  import opened AuthTypes
  import opened Cookies
  import opened Http
  import AuthClient
  import Middleware

  const DEFAULT_REDIRECT: string := "/dashboard"

  const EMAIL_INVALID: string := "Email invalide"
  const PASSWORD_TOO_SHORT: string := "Le mot de passe doit contenir au moins 6 caractères"
  const SLUG_REQUIRED: string := "Le slug du tenant est requis"

  const ADMIN_ONLY: string := "Accès réservé aux administrateurs"
  const LOGIN_SUCCEEDED: string := "Connexion réussie"
  const BAD_CREDENTIALS: string := "Identifiants invalides"
  const TENANT_NOT_FOUND: string := "Tenant introuvable"
  const GENERIC_ERROR: string := "Une erreur est survenue"

  /** `searchParams.get("redirect") || "/dashboard"` */
  function RedirectPath(param: Option<string>): (p: string)
    ensures param.Some? && param.value != "" ==> p == param.value
    ensures param.None? || param.value == "" ==> p == DEFAULT_REDIRECT
    ensures p != ""
  {
    if param.Some? && param.value != "" then param.value else DEFAULT_REDIRECT
  }

  datatype FieldError = FieldError(field: string, message: string)

  /** `loginSchema`: one error per failing field, in schema order. Whether a text is an email
      address is zod's own test, taken as the parameter `isEmail`. */
  function Validate(form: LoginRequest, isEmail: string -> bool): (errors: seq<FieldError>)
    ensures errors == [] <==> isEmail(form.email) && |form.password| >= 6 && |form.tenant_slug| >= 1
    ensures FieldError("email", EMAIL_INVALID) in errors <==> !isEmail(form.email)
    ensures FieldError("password", PASSWORD_TOO_SHORT) in errors <==> |form.password| < 6
    ensures FieldError("tenant_slug", SLUG_REQUIRED) in errors <==> form.tenant_slug == ""
    ensures |errors| <= 3
  {
    (if isEmail(form.email) then [] else [FieldError("email", EMAIL_INVALID)]) +
    (if |form.password| >= 6 then [] else [FieldError("password", PASSWORD_TOO_SHORT)]) +
    (if |form.tenant_slug| >= 1 then [] else [FieldError("tenant_slug", SLUG_REQUIRED)])
  }

  datatype Toast = ToastSuccess(message: string) | ToastError(message: string)

  /** What a submission shows, and where the page navigates afterwards (after a 500 ms delay). */
  datatype Effect = Effect(toast: Toast, navigate: Option<string>)

  /** The catch branch: the status of the failing response picks the message. */
  function ErrorMessage(status: Option<int>): (m: string)
    ensures status == Some(401) ==> m == BAD_CREDENTIALS
    ensures status == Some(404) ==> m == TENANT_NOT_FOUND
    ensures status != Some(401) && status != Some(404) ==> m == GENERIC_ERROR
  {
    if status == Some(401) then BAD_CREDENTIALS
    else if status == Some(404) then TENANT_NOT_FOUND
    else GENERIC_ERROR
  }

  /** `onSubmit` once `authService.login` has settled. */
  function OnSubmit(login: Result<Token, HttpError>, redirectPath: string): Effect {
    match login
    case Ok(t) =>
      if !IsAdmin(t.user_role) then Effect(ToastError(ADMIN_ONLY), None)
      else Effect(ToastSuccess(LOGIN_SUCCEEDED), Some(redirectPath))
    case Err(e) => Effect(ToastError(ErrorMessage(e.status)), None)
  }

  /** A submission: a form the schema refuses never reaches `onSubmit`; otherwise the login
      POST runs through the global instance and `onSubmit` branches on the login's result. */
  method Submit(jar: CookieJar, env: Env, now: int, form: LoginRequest, isEmail: string -> bool,
                redirectParam: Option<string>, net: AuthClient.Network<Token>)
    returns (errors: seq<FieldError>, effect: Option<Effect>)
    modifies jar
    ensures errors == Validate(form, isEmail)
    ensures errors != [] ==> effect.None? && jar.cookies == old(jar.cookies)
    ensures errors == [] ==>
              var run := AuthClient.LoginRun(old(jar.cookies), env, now, net);
              effect == Some(OnSubmit(AuthClient.LoginResult(run.res), RedirectPath(redirectParam))) &&
              jar.cookies == AuthClient.LoginCookies(run.cookies, env, now, run.res)
    ensures effect.Some? ==> effect.value.toast != ToastError(ADMIN_ONLY)
    ensures effect.Some? && effect.value.navigate.Some? ==>
              var res := AuthClient.LoginRun(old(jar.cookies), env, now, net).res;
              effect.value.navigate.value == RedirectPath(redirectParam) && res.Resolved? && IsAdmin(res.body.user_role)
  {
    errors := Validate(form, isEmail);
    if errors != [] {
      return errors, None;
    }
    var r := AuthClient.Login(jar, env, now, net);
    effect := Some(OnSubmit(r, RedirectPath(redirectParam)));
  }

  // ---------------------------------------------------------------------------------------------
  // Properties

  /** The effect of every settled login: success navigates to the target exactly for an admin
      token, and a failed login shows the message for its status. */
  lemma OnSubmitCases(login: Result<Token, HttpError>, redirectPath: string)
    ensures OnSubmit(login, redirectPath).navigate.Some? <==> login.Ok? && IsAdmin(login.value.user_role)
    ensures OnSubmit(login, redirectPath).navigate.Some? ==>
              OnSubmit(login, redirectPath) == Effect(ToastSuccess(LOGIN_SUCCEEDED), Some(redirectPath))
    ensures login.Err? ==> OnSubmit(login, redirectPath).toast == ToastError(ErrorMessage(login.error.status))
  {
  }

  /** authService.login only returns admin tokens, so the page's own admin refusal never shows;
      a non-admin user sees the generic message instead. */
  lemma NonAdminSeesGenericMessage(t: Token, redirectPath: string)
    requires !IsAdmin(t.user_role)
    ensures OnSubmit(Err(HttpError(None)), redirectPath) == Effect(ToastError(GENERIC_ERROR), None)
    ensures OnSubmit(Ok(t), redirectPath).toast == ToastError(ADMIN_ONLY)
  {
  }

  /** A page the gate turns away sends the user to the login page, which after a successful
      admin login returns to that very page. */
  lemma GateRedirectRoundTrip(pathname: string, cookie: Option<string>, headers: Headers, now: int, t: Token)
    requires Middleware.Route(pathname, cookie, headers, now).RedirectTo?
    requires IsAdmin(t.user_role)
    ensures Middleware.Route(pathname, cookie, headers, now).path == LOGIN_PATH
    ensures OnSubmit(Ok(t), RedirectPath(Some(Middleware.Route(pathname, cookie, headers, now).redirect))).navigate
            == Some(pathname)
  {
    assert Middleware.Matched(pathname);
    assert pathname != "";
  }
}
