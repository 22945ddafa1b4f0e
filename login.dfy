/** The two login handlers: `POST /api/login` (src/app/api/login/route.ts) and its copy in
    src/components/LoginForm.tsx. Both accept one fixed credential pair and answer with a
    one-hour session token, in the body and as an `authToken` cookie. */
module Login {
  import opened Wrappers
  import opened Strings
  import opened Http
  import opened Cookies
  import Jwt

  /** `username === 'admin' && password === 'password'` on the fields destructured from the
      request body; a body that is not an object has neither field. */
  predicate Accepted(body: Json) {
    Field(body, "username") == Some(Str("admin")) && Field(body, "password") == Some(Str("password"))
  }

  /** The pieces between the ';' of the cookie header `/api/login` sends,
      `authToken=<token>; path=/; Secure; HttpOnly; SameSite=Strict`. */
  function ApiCookiePieces(token: string): seq<string> {
    ["authToken=" + token, " path=/", " Secure", " HttpOnly", " SameSite=Strict"]
  }

  function ApiCookieHeader(token: string): string {
    Join(ApiCookiePieces(token), ";")
  }

  /** The pieces of the header `LoginForm.tsx` sends,
      `authToken=<token>; Path=/; HttpOnly; Secure; SameSite=Strict;`: its trailing ';' leaves
      an empty last piece. */
  function FormCookiePieces(token: string): seq<string> {
    ["authToken=" + token, " Path=/", " HttpOnly", " Secure", " SameSite=Strict", ""]
  }

  function FormCookieHeader(token: string): string {
    Join(FormCookiePieces(token), ";")
  }

  /** The steps both handlers share; `body` is `None` when `req.json()` throws, and
      destructuring `null` throws as well. Neither exception is caught, nor is `jwt.sign`'s
      on an empty secret. */
  function Respond(body: Option<Json>, env: Jwt.Environment, header: string -> string, rejection: string): (r: Response)
    ensures r.Status() == 200 <==> body.Some? && body.value != Null && Accepted(body.value) && env.secret != ""
    ensures r.Status() == 200 ==>
      var token := env.lib.sign(Jwt.SessionClaims("admin", env.now), env.secret);
      r == Reply(200, Obj([("token", Str(token))]), Some(header(token)))
    ensures body.Some? && body.value != Null && !Accepted(body.value) ==>
      r == JsonReply(401, Message("message", rejection))
  {
    if body.None? || body.value == Null then Unhandled
    else if !Accepted(body.value) then JsonReply(401, Message("message", rejection))
    else match Jwt.SignSession(env, "admin")
      case None => Unhandled
      case Some(token) => Reply(200, Obj([("token", Str(token))]), Some(header(token)))
  }

  /** `POST /api/login`. */
  function ApiLogin(body: Option<Json>, env: Jwt.Environment): Response {
    Respond(body, env, ApiCookieHeader, "Invalid credentials")
  }

  /** The `POST` handler of `LoginForm.tsx`. */
  function FormLogin(body: Option<Json>, env: Jwt.Environment): Response {
    Respond(body, env, FormCookieHeader, "Ungültige Anmeldedaten")
  }

  /** The two handlers make the same decision on every request; they differ only in the text
      of the rejection and of the cookie header. */
  lemma SameDecision(body: Option<Json>, env: Jwt.Environment)
    ensures ApiLogin(body, env).Status() == FormLogin(body, env).Status()
    ensures ApiLogin(body, env).Reply? <==> FormLogin(body, env).Reply?
    ensures ApiLogin(body, env).Status() == 200 ==> ApiLogin(body, env).body == FormLogin(body, env).body
  {
  }

  // ---------------------------------------------------------------------------
  // what the browser makes of the cookie headers

  /** `Path=/; Secure; HttpOnly; SameSite=Strict`. */
  const SessionAttributes: Attributes := Attributes(Some("/"), true, true, Some(Strict), None)

  lemma LowerPathAt()
    ensures IndexOf(" path=/", "=") == Some(5) && " path=/"[..5] == " path" && " path=/"[6..] == "/"
  {
    assert " path=/" == " path" + "=" + "/";
    IndexOfAfterFreePrefix(" path", "=", "/");
  }

  lemma UpperPathAt()
    ensures IndexOf(" Path=/", "=") == Some(5) && " Path=/"[..5] == " Path" && " Path=/"[6..] == "/"
  {
    assert " Path=/" == " Path" + "=" + "/";
    IndexOfAfterFreePrefix(" Path", "=", "/");
  }

  lemma SameSiteAt()
    ensures IndexOf(" SameSite=Strict", "=") == Some(9)
    ensures " SameSite=Strict"[..9] == " SameSite" && " SameSite=Strict"[10..] == "Strict"
  {
    assert " SameSite=Strict" == " SameSite" + "=" + "Strict";
    IndexOfAfterFreePrefix(" SameSite", "=", "Strict");
  }

  lemma NoEquals()
    ensures IndexOf(" Secure", "=").None? && IndexOf(" HttpOnly", "=").None? && IndexOf("", "=").None?
  {
    assert "="[0] == '=';
    assert '=' !in " Secure";
    NoIndexWithoutFirstChar(" Secure", "=");
    assert '=' !in " HttpOnly";
    NoIndexWithoutFirstChar(" HttpOnly", "=");
    NoIndexWithoutFirstChar("", "=");
  }

  lemma InterpretPath(a: Attributes)
    ensures Interpret(ToLower(TrimWsp(" path")), TrimWsp("/"), a) == a.(path := Some("/"))
    ensures Interpret(ToLower(TrimWsp(" Path")), TrimWsp("/"), a) == a.(path := Some("/"))
  {
    assert TrimWsp(" path") == "path" && TrimWsp(" Path") == "Path" && TrimWsp("/") == "/";
    assert ToLower("Path") == "path" && ToLower("path") == "path";
  }

  lemma InterpretFlags(a: Attributes)
    ensures Interpret(ToLower(TrimWsp(" Secure")), TrimWsp(""), a) == a.(secure := true)
    ensures Interpret(ToLower(TrimWsp(" HttpOnly")), TrimWsp(""), a) == a.(httpOnly := true)
    ensures Interpret(ToLower(TrimWsp("")), TrimWsp(""), a) == a
  {
    assert TrimWsp(" Secure") == "Secure" && TrimWsp(" HttpOnly") == "HttpOnly";
    assert ToLower("Secure") == "secure" && ToLower("HttpOnly") == "httponly";
    assert ToLower(TrimWsp("")) == "";
  }

  lemma InterpretSameSite(a: Attributes)
    ensures Interpret(ToLower(TrimWsp(" SameSite")), TrimWsp("Strict"), a) == a.(sameSite := Some(Strict))
  {
    assert TrimWsp(" SameSite") == "SameSite" && TrimWsp("Strict") == "Strict";
    assert ToLower("SameSite") == "samesite" && ToLower("Strict") == "strict";
  }

  /** `path=/` and `Path=/` set the path (section 5.2.4 of RFC 6265). */
  lemma PathAttribute(a: Attributes)
    ensures ParseAttribute(" path=/", a) == a.(path := Some("/"))
    ensures ParseAttribute(" Path=/", a) == a.(path := Some("/"))
  {
    LowerPathAt();
    UpperPathAt();
    InterpretPath(a);
  }

  /** `Secure` and `HttpOnly` set their flags (sections 5.2.5 and 5.2.6 of RFC 6265); the empty
      attribute after a trailing ';' does nothing. */
  lemma FlagAttributes(a: Attributes)
    ensures ParseAttribute(" Secure", a) == a.(secure := true)
    ensures ParseAttribute(" HttpOnly", a) == a.(httpOnly := true)
    ensures ParseAttribute("", a) == a
  {
    NoEquals();
    InterpretFlags(a);
  }

  /** `SameSite=Strict` sets the same-site mode. */
  lemma SameSiteAttribute(a: Attributes)
    ensures ParseAttribute(" SameSite=Strict", a) == a.(sameSite := Some(Strict))
  {
    SameSiteAt();
    InterpretSameSite(a);
  }

  /** A compact token holds no ';', no '=' and no space or tab. */
  lemma CompactIsPlain(token: string)
    requires Jwt.IsCompact(token)
    ensures ';' !in token && '=' !in token
    ensures token == "" || (!IsWsp(token[0]) && !IsWsp(token[|token| - 1]))
  {
    forall i | 0 <= i < |token|
      ensures token[i] != ';' && token[i] != '=' && !IsWsp(token[i])
    {
      assert Jwt.IsTokenChar(token[i]);
    }
  }

  /** The name-value pair `authToken=<token>` both headers start with. */
  lemma ParseSessionPair(token: string)
    requires Jwt.IsCompact(token)
    ensures var pair := "authToken=" + token;
      ';' !in pair && IndexOf(pair, "=") == Some(9) &&
      TrimWsp(pair[..9]) == "authToken" && TrimWsp(pair[10..]) == token
  {
    var pair := "authToken=" + token;
    CompactIsPlain(token);
    IndexOfAfterFreePrefix("authToken", "=", token);
    assert pair == "authToken" + "=" + token;
    assert pair[..9] == "authToken" && pair[10..] == token;
    TrimWspOfTrimmed("authToken");
    TrimWspOfTrimmed(token);
    assert ';' !in "authToken=";
  }

  /** One step of the attribute fold. */
  lemma ParseAttributesCons(av: string, avs: seq<string>, a: Attributes)
    ensures ParseAttributes([av] + avs, a) == ParseAttributes(avs, ParseAttribute(av, a))
  {
    assert ([av] + avs)[1..] == avs;
  }

  /** A header whose pair is `authToken=<token>` stores the token. */
  lemma SessionPairHeader(token: string, header: string, avs: seq<string>)
    requires Jwt.IsCompact(token)
    requires Split(header, ";") == ["authToken=" + token] + avs
    ensures ParseSetCookie(header) == Some(("authToken", Store(token, ParseAttributes(avs, NoAttributes))))
  {
    ParseSessionPair(token);
    assert Split(header, ";")[1..] == avs;
  }

  lemma ApiHeaderSplit(token: string)
    requires Jwt.IsCompact(token)
    ensures Split(ApiCookieHeader(token), ";") ==
      ["authToken=" + token] + [" path=/", " Secure", " HttpOnly", " SameSite=Strict"]
  {
    ParseSessionPair(token);
    var parts := ApiCookiePieces(token);
    assert ";"[0] == ';';
    assert ';' !in " path=/";
    assert ';' !in " Secure";
    assert ';' !in " HttpOnly";
    assert ';' !in " SameSite=Strict";
    assert forall k :: 0 <= k < |parts| ==> ';' !in parts[k];
    SplitJoin(parts, ";");
    assert parts == ["authToken=" + token] + [" path=/", " Secure", " HttpOnly", " SameSite=Strict"];
  }

  lemma FormHeaderSplit(token: string)
    requires Jwt.IsCompact(token)
    ensures Split(FormCookieHeader(token), ";") ==
      ["authToken=" + token] + [" Path=/", " HttpOnly", " Secure", " SameSite=Strict", ""]
  {
    ParseSessionPair(token);
    var parts := FormCookiePieces(token);
    assert ";"[0] == ';';
    assert ';' !in " Path=/";
    assert ';' !in " Secure";
    assert ';' !in " HttpOnly";
    assert ';' !in " SameSite=Strict";
    assert forall k :: 0 <= k < |parts| ==> ';' !in parts[k];
    SplitJoin(parts, ";");
    assert parts == ["authToken=" + token] + [" Path=/", " HttpOnly", " Secure", " SameSite=Strict", ""];
  }

  lemma ApiAttributesFold()
    ensures ParseAttributes([" path=/", " Secure", " HttpOnly", " SameSite=Strict"], NoAttributes) == SessionAttributes
  {
    var a1 := NoAttributes.(path := Some("/"));
    var a2 := a1.(secure := true);
    var a3 := a2.(httpOnly := true);
    var none: seq<string> := [];
    var l3 := [" SameSite=Strict"] + none;
    var l2 := [" HttpOnly"] + l3;
    var l1 := [" Secure"] + l2;
    assert [" path=/", " Secure", " HttpOnly", " SameSite=Strict"] == [" path=/"] + l1;
    calc {
      ParseAttributes([" path=/"] + l1, NoAttributes);
      == { ParseAttributesCons(" path=/", l1, NoAttributes); PathAttribute(NoAttributes); }
      ParseAttributes(l1, a1);
      == { ParseAttributesCons(" Secure", l2, a1); FlagAttributes(a1); }
      ParseAttributes(l2, a2);
      == { ParseAttributesCons(" HttpOnly", l3, a2); FlagAttributes(a2); }
      ParseAttributes(l3, a3);
      == { ParseAttributesCons(" SameSite=Strict", none, a3); SameSiteAttribute(a3); }
      ParseAttributes(none, SessionAttributes);
    }
  }

  lemma FormAttributesFold()
    ensures ParseAttributes([" Path=/", " HttpOnly", " Secure", " SameSite=Strict", ""], NoAttributes) == SessionAttributes
  {
    var a1 := NoAttributes.(path := Some("/"));
    var a2 := a1.(httpOnly := true);
    var a3 := a2.(secure := true);
    var none: seq<string> := [];
    var l4 := [""] + none;
    var l3 := [" SameSite=Strict"] + l4;
    var l2 := [" Secure"] + l3;
    var l1 := [" HttpOnly"] + l2;
    assert [" Path=/", " HttpOnly", " Secure", " SameSite=Strict", ""] == [" Path=/"] + l1;
    calc {
      ParseAttributes([" Path=/"] + l1, NoAttributes);
      == { ParseAttributesCons(" Path=/", l1, NoAttributes); PathAttribute(NoAttributes); }
      ParseAttributes(l1, a1);
      == { ParseAttributesCons(" HttpOnly", l2, a1); FlagAttributes(a1); }
      ParseAttributes(l2, a2);
      == { ParseAttributesCons(" Secure", l3, a2); FlagAttributes(a2); }
      ParseAttributes(l3, a3);
      == { ParseAttributesCons(" SameSite=Strict", l4, a3); SameSiteAttribute(a3); }
      ParseAttributes(l4, SessionAttributes);
      == { ParseAttributesCons("", none, SessionAttributes); FlagAttributes(SessionAttributes); }
      ParseAttributes(none, SessionAttributes);
    }
  }

  /** Both headers set the same cookie: `authToken` holding the token, with `Path=/`, `Secure`,
      `HttpOnly` and `SameSite=Strict` (section 5.2 of RFC 6265 reads attribute names without
      regard to case and ignores the empty attribute after a trailing ';'). */
  lemma HeadersSetTheSameCookie(token: string)
    requires Jwt.IsCompact(token)
    ensures ParseSetCookie(ApiCookieHeader(token)) == Some(("authToken", Store(token, SessionAttributes)))
    ensures ParseSetCookie(FormCookieHeader(token)) == Some(("authToken", Store(token, SessionAttributes)))
  {
    ApiHeaderSplit(token);
    ApiAttributesFold();
    SessionPairHeader(token, ApiCookieHeader(token), [" path=/", " Secure", " HttpOnly", " SameSite=Strict"]);
    FormHeaderSplit(token);
    FormAttributesFold();
    SessionPairHeader(token, FormCookieHeader(token), [" Path=/", " HttpOnly", " Secure", " SameSite=Strict", ""]);
  }

  /** The jar of a client after it has received a login response. */
  function Receive(jar: Jar, r: Response): Jar {
    if r.Reply? && r.setCookie.Some? then ApplySetCookie(jar, r.setCookie.value) else jar
  }

  /** A response whose header sets the session cookie adds exactly that cookie to the jar. */
  lemma ReceiveSession(jar: Jar, r: Response, token: string)
    requires r.Reply? && r.setCookie.Some?
    requires ParseSetCookie(r.setCookie.value) == Some(("authToken", Store(token, SessionAttributes)))
    ensures Receive(jar, r) == jar["authToken" := StoredCookie(token, true)]
  {
  }

  /** The login response of either handler: the session cookie when the status is 200, no
      cookie otherwise. */
  lemma {:induction false} LoginReceived(jar: Jar, body: Option<Json>, env: Jwt.Environment, api: bool)
    requires Jwt.Sound(env.lib)
    ensures var r := if api then ApiLogin(body, env) else FormLogin(body, env);
      var token := env.lib.sign(Jwt.SessionClaims("admin", env.now), env.secret);
      Receive(jar, r) == if r.Status() == 200 then jar["authToken" := StoredCookie(token, true)] else jar
  {
    var r := if api then ApiLogin(body, env) else FormLogin(body, env);
    var token := env.lib.sign(Jwt.SessionClaims("admin", env.now), env.secret);
    if r.Status() == 200 {
      assert Jwt.IsCompact(token);
      HeadersSetTheSameCookie(token);
      ReceiveSession(jar, r, token);
    }
  }

  /** A successful login stores the session token as an HttpOnly `authToken` cookie and touches
      no other cookie: in particular `failedAttempts` is neither read nor written, so failed
      logins never move a client towards the lock-out. */
  lemma LoginStoresOnlyTheSession(jar: Jar, body: Option<Json>, env: Jwt.Environment)
    requires Jwt.Sound(env.lib)
    ensures var after := Receive(jar, ApiLogin(body, env));
      (forall n :: n != "authToken" ==> (n in after <==> n in jar) && (n in after ==> after[n] == jar[n])) &&
      (ApiLogin(body, env).Status() == 200 ==>
        "authToken" in after &&
        after["authToken"] == StoredCookie(env.lib.sign(Jwt.SessionClaims("admin", env.now), env.secret), true))
    ensures var after := Receive(jar, FormLogin(body, env));
      (forall n :: n != "authToken" ==> (n in after <==> n in jar) && (n in after ==> after[n] == jar[n])) &&
      (FormLogin(body, env).Status() == 200 ==>
        "authToken" in after &&
        after["authToken"] == StoredCookie(env.lib.sign(Jwt.SessionClaims("admin", env.now), env.secret), true))
  {
    LoginReceived(jar, body, env, true);
    LoginReceived(jar, body, env, false);
  }
}
