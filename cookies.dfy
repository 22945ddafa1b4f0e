/** Cookies as the portal's handlers and pages see them: the browser's jar, the cookie store
    of a Next.js response (`response.cookies.set/delete`), a raw `Set-Cookie` header parsed as
    section 5.2 of RFC 6265 says, and the `document.cookie` string of sections 4.2.1 and 5.4. */
module Cookies {
  import opened Wrappers
  import opened Strings

  datatype SameSite = Strict | Lax | NoRestriction

  /** The attributes a handler gives a cookie. */
  datatype Attributes = Attributes(
    path: Option<string>,
    secure: bool,
    httpOnly: bool,
    sameSite: Option<SameSite>,
    maxAge: Option<int>)

  const NoAttributes: Attributes := Attributes(None, false, false, None, None)

  /** A cookie as the browser keeps it: its value and whether scripts are kept from it. */
  datatype StoredCookie = StoredCookie(value: string, httpOnly: bool)

  /** One client's cookies by name. */
  type Jar = map<string, StoredCookie>

  /** `req.cookies.get(name)?.value`. */
  function Get(jar: Jar, name: string): Option<string> {
    if name in jar then Some(jar[name].value) else None
  }

  /** One entry of a response's cookie store: `set(name, value, attrs)` or `delete(name, attrs)`,
      which Next.js sends as an empty value that expired at the epoch. */
  datatype CookieWrite = Store(value: string, attrs: Attributes) | Expire(attrs: Attributes)

  /** Section 5.3 of RFC 6265: an expired cookie, or one with a non-positive Max-Age, is
      removed from the jar instead of stored. */
  predicate Removes(w: CookieWrite) {
    w.Expire? || (w.attrs.maxAge.Some? && w.attrs.maxAge.value <= 0)
  }

  /** The cookie store of a `NextResponse`: one pending write per cookie name. */
  class ResponseCookies {
    var writes: map<string, CookieWrite>

    constructor ()
      ensures writes == map[]
    {
      writes := map[];
    }

    /** `response.cookies.set(name, value, attrs)`. */
    method Set(name: string, value: string, attrs: Attributes)
      modifies this
      ensures writes == old(writes)[name := Store(value, attrs)]
    {
      writes := writes[name := Store(value, attrs)];
    }

    /** `response.cookies.delete(name, attrs)`. */
    method Delete(name: string, attrs: Attributes)
      modifies this
      ensures writes == old(writes)[name := Expire(attrs)]
    {
      writes := writes[name := Expire(attrs)];
    }
  }

  /** The jar after the browser has received one cookie write. */
  function Apply(jar: Jar, name: string, w: CookieWrite): (r: Jar)
    ensures Removes(w) ==> name !in r
    ensures !Removes(w) ==> name in r && r[name] == StoredCookie(w.value, w.attrs.httpOnly)
    ensures forall n :: n != name ==> (n in r <==> n in jar) && (n in r ==> r[n] == jar[n])
  {
    if Removes(w) then jar - {name} else jar[name := StoredCookie(w.value, w.attrs.httpOnly)]
  }

  /** The jar after the browser has received all writes of a response. */
  function ApplyWrites(jar: Jar, writes: map<string, CookieWrite>): (r: Jar)
    ensures forall n :: n in writes && Removes(writes[n]) ==> n !in r
    ensures forall n :: n in writes && !Removes(writes[n]) ==>
      n in r && r[n] == StoredCookie(writes[n].value, writes[n].attrs.httpOnly)
    ensures forall n :: n !in writes ==> (n in r <==> n in jar) && (n in r ==> r[n] == jar[n])
  {
    map n | n in jar.Keys + writes.Keys && !(n in writes && Removes(writes[n])) ::
      if n in writes then StoredCookie(writes[n].value, writes[n].attrs.httpOnly) else jar[n]
  }

  /** Receiving the same writes a second time changes nothing more. */
  lemma ApplyWritesIdempotent(jar: Jar, writes: map<string, CookieWrite>)
    ensures ApplyWrites(ApplyWrites(jar, writes), writes) == ApplyWrites(jar, writes)
  {
    var once := ApplyWrites(jar, writes);
    var twice := ApplyWrites(once, writes);
    assert twice.Keys == once.Keys;
  }

  // ---------------------------------------------------------------------------
  // Set-Cookie headers (section 5.2 of RFC 6265)

  predicate IsWsp(c: char) {
    c == ' ' || c == '\t'
  }

  function DropLeadingWsp(s: string): (r: string)
    ensures r != "" ==> !IsWsp(r[0])
  {
    if s != "" && IsWsp(s[0]) then DropLeadingWsp(s[1..]) else s
  }

  function DropTrailingWsp(s: string): (r: string)
    ensures r != "" ==> |s| > 0 && !IsWsp(r[|r| - 1]) && r[0] == s[0]
  {
    if s != "" && IsWsp(s[|s| - 1]) then DropTrailingWsp(s[..|s| - 1]) else s
  }

  /** Removes leading and trailing spaces and tabs. */
  function TrimWsp(s: string): (r: string)
    ensures r != "" ==> !IsWsp(r[0]) && !IsWsp(r[|r| - 1])
  {
    DropTrailingWsp(DropLeadingWsp(s))
  }

  /** A string without spaces or tabs at its ends is its own trim. */
  lemma TrimWspOfTrimmed(s: string)
    requires s == "" || (!IsWsp(s[0]) && !IsWsp(s[|s| - 1]))
    ensures TrimWsp(s) == s
  {
  }

  /** One leading space before a string without spaces or tabs at its ends is trimmed away. */
  lemma TrimWspAfterSpace(w: string)
    requires w != "" && !IsWsp(w[0]) && !IsWsp(w[|w| - 1])
    ensures TrimWsp(" " + w) == w
  {
    var s := " " + w;
    assert s[0] == ' ' && s[1..] == w;
    assert DropLeadingWsp(s) == DropLeadingWsp(w);
  }

  /** `SameSite` values are matched case-insensitively; an unknown one sets nothing. */
  function ParseSameSite(value: string): (r: Option<SameSite>)
  {
    var v := ToLower(value);
    if v == "strict" then Some(Strict)
    else if v == "lax" then Some(Lax)
    else if v == "none" then Some(NoRestriction)
    else None
  }

  /** What one attribute does, given its lower-cased name and trimmed value; unknown
      attributes are ignored. */
  function Interpret(name: string, value: string, a: Attributes): Attributes
  {
    if name == "path" then a.(path := if value != "" && value[0] == '/' then Some(value) else None)
    else if name == "secure" then a.(secure := true)
    else if name == "httponly" then a.(httpOnly := true)
    else if name == "samesite" then a.(sameSite := ParseSameSite(value))
    else a
  }

  /** Section 5.2 of RFC 6265, steps for one cookie-av: name and value around the first '=',
      trimmed, the name compared case-insensitively. */
  function ParseAttribute(av: string, a: Attributes): Attributes
  {
    var i := IndexOf(av, "=");
    var rawName := if i.Some? then av[..i.value] else av;
    var rawValue := if i.Some? then av[i.value + 1..] else "";
    Interpret(ToLower(TrimWsp(rawName)), TrimWsp(rawValue), a)
  }

  function ParseAttributes(avs: seq<string>, a: Attributes): Attributes
    decreases |avs|
  {
    if avs == [] then a else ParseAttributes(avs[1..], ParseAttribute(avs[0], a))
  }

  /** Section 5.2 of RFC 6265: the name-value pair is the text before the first ';', cut at its
      first '=' (without one, or with an empty name, the header is ignored); the rest are
      attributes. */
  function ParseSetCookie(header: string): (r: Option<(string, CookieWrite)>)
    ensures r.Some? ==> r.value.0 != "" && r.value.1.Store?
  {
    var parts := Split(header, ";");
    var pair := parts[0];
    match IndexOf(pair, "=")
    case None => None
    case Some(i) =>
      var name := TrimWsp(pair[..i]);
      var value := TrimWsp(pair[i + 1..]);
      if name == "" then None
      else Some((name, Store(value, ParseAttributes(parts[1..], NoAttributes))))
  }

  /** The jar after the browser has received a `Set-Cookie` header. */
  function ApplySetCookie(jar: Jar, header: string): Jar {
    match ParseSetCookie(header)
    case None => jar
    case Some(nw) => Apply(jar, nw.0, nw.1)
  }

  // ---------------------------------------------------------------------------
  // document.cookie (sections 4.2.1 and 5.4 of RFC 6265)

  /** The cookies of `jar` a script may read, in the order `order` lists their names: section
      5.4 of RFC 6265 keeps HttpOnly cookies from non-HTTP APIs. */
  function ScriptVisible(jar: Jar, order: seq<string>): (r: seq<(string, string)>)
    ensures forall k :: 0 <= k < |r| ==>
      r[k].0 in order && r[k].0 in jar && !jar[r[k].0].httpOnly && r[k].1 == jar[r[k].0].value
  {
    if order == [] then []
    else
      var n := order[0];
      var rest := ScriptVisible(jar, order[1..]);
      if n in jar && !jar[n].httpOnly then [(n, jar[n].value)] + rest else rest
  }

  /** Every cookie a script may read is listed, provided `order` names it. */
  lemma {:induction false} ScriptVisibleComplete(jar: Jar, order: seq<string>, n: string)
    requires n in order && n in jar && !jar[n].httpOnly
    ensures exists k :: 0 <= k < |ScriptVisible(jar, order)| && ScriptVisible(jar, order)[k].0 == n
  {
    var r := ScriptVisible(jar, order);
    var rest := ScriptVisible(jar, order[1..]);
    if order[0] == n {
      assert r[0].0 == n;
    } else {
      ScriptVisibleComplete(jar, order[1..], n);
      var k :| 0 <= k < |rest| && rest[k].0 == n;
      if r == rest {
        assert r[k].0 == n;
      } else {
        assert r[k + 1] == rest[k];
      }
    }
  }

  /** `name=value` for each pair. */
  function Rows(pairs: seq<(string, string)>): (rows: seq<string>)
    ensures |rows| == |pairs|
    ensures forall k :: 0 <= k < |pairs| ==> rows[k] == pairs[k].0 + "=" + pairs[k].1
  {
    seq(|pairs|, k requires 0 <= k < |pairs| => pairs[k].0 + "=" + pairs[k].1)
  }

  /** Section 4.2.1 of RFC 6265: cookie-string = cookie-pair *( ";" SP cookie-pair ). */
  function CookieString(pairs: seq<(string, string)>): string {
    Join(Rows(pairs), "; ")
  }
}
