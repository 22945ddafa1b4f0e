/** The page at `/locked/logout` (src/app/locked/logout/page.tsx): it shows the username of the
    session it finds in `document.cookie`, and its button logs out and always moves on to
    `/login`. */
module LockedLogoutPage {
  import opened Wrappers
  import opened Strings
  import opened Cookies
  import Jwt

  /** `rows.find(row => row.startsWith(prefix))`, as the position of the row found. */
  function FindFirst(rows: seq<string>, prefix: string): (r: Option<nat>)
    ensures r.Some? ==> r.value < |rows| && StartsWith(rows[r.value], prefix)
    ensures r.Some? ==> forall k :: 0 <= k < r.value ==> !StartsWith(rows[k], prefix)
    ensures r.None? ==> forall k :: 0 <= k < |rows| ==> !StartsWith(rows[k], prefix)
  {
    if rows == [] then None
    else if StartsWith(rows[0], prefix) then Some(0)
    else match FindFirst(rows[1..], prefix)
      case None => None
      case Some(k) => Some(k + 1)
  }

  /** `row.split('=')[1]` for a row that starts with `authToken=`: the text between the first
      '=' and the next one. */
  function ValueOfRow(row: string): (v: string)
    requires StartsWith(row, "authToken=")
    ensures v == Before(row[10..], '=')
  {
    assert row == "authToken" + "=" + row[10..];
    SplitCons("authToken", "=", row[10..]);
    SplitFirstIsBefore(row[10..], '=');
    Split(row, "=")[1]
  }

  /** The extraction at line 13, `undefined` being `None`. */
  function TokenFromCookieString(cookie: string): Option<string> {
    var rows := Split(cookie, "; ");
    match FindFirst(rows, "authToken=")
    case None => None
    case Some(k) => Some(ValueOfRow(rows[k]))
  }

  /** The cookies a script may see are well formed when no name holds '=' or ';' and no value
      holds ';', as the cookie-pair grammar of section 4.1.1 of RFC 6265 asks. */
  predicate WellFormed(pairs: seq<(string, string)>) {
    forall k :: 0 <= k < |pairs| ==> '=' !in pairs[k].0 && ';' !in pairs[k].0 && ';' !in pairs[k].1
  }

  /** A row `name=value` whose name holds no '=' starts with `authToken=` exactly when the name
      is `authToken`. */
  lemma RowMatchesOnlyItsName(name: string, value: string)
    requires '=' !in name
    ensures StartsWith(name + "=" + value, "authToken=") <==> name == "authToken"
  {
    var row := name + "=" + value;
    if StartsWith(row, "authToken=") {
      assert forall i :: 0 <= i < |name| ==> row[i] == name[i];
      assert row[|name|] == '=';
      assert forall i :: 0 <= i < 10 ==> row[i] == "authToken="[i];
      assert forall i :: 0 <= i < 9 ==> "authToken="[i] != '=';
      assert forall i :: 0 <= i < |name| ==> name[i] != '=';
      assert row[9] == '=';
      assert |name| <= 9;
      assert |name| >= 9;
      assert name == row[..9];
    }
  }

  /** Reading back a `document.cookie` string: the first cookie named `authToken` gives its value
      up to any '=' in it, and without such a cookie nothing is read. */
  lemma {:induction false} ReadsTheFirstSessionCookie(pairs: seq<(string, string)>)
    requires WellFormed(pairs)
    ensures var r := TokenFromCookieString(CookieString(pairs));
      (r.Some? <==> exists k :: 0 <= k < |pairs| && pairs[k].0 == "authToken") &&
      (r.Some? ==>
        exists k :: 0 <= k < |pairs| && pairs[k].0 == "authToken" &&
          (forall j :: 0 <= j < k ==> pairs[j].0 != "authToken") && r.value == Before(pairs[k].1, '='))
  {
    var rows := Rows(pairs);
    if pairs == [] {
      assert CookieString(pairs) == "";
      SplitFree("", "; ");
      assert !StartsWith("", "authToken=");
    } else {
      forall k | 0 <= k < |rows| ensures ';' !in rows[k] {
        assert rows[k] == pairs[k].0 + "=" + pairs[k].1;
      }
      SplitJoin(rows, "; ");
      forall k | 0 <= k < |pairs|
        ensures StartsWith(rows[k], "authToken=") <==> pairs[k].0 == "authToken"
      {
        RowMatchesOnlyItsName(pairs[k].0, pairs[k].1);
      }
      var found := FindFirst(rows, "authToken=");
      if found.Some? {
        var k := found.value;
        assert rows[k] == "authToken" + "=" + pairs[k].1;
        assert rows[k][10..] == pairs[k].1;
      }
    }
  }

  /** An HttpOnly session cookie is never read: `document.cookie` does not show it (section 5.4
      of RFC 6265), so the page finds no token whatever else the jar holds. */
  lemma HttpOnlySessionIsNeverRead(jar: Jar, order: seq<string>)
    requires "authToken" in jar && jar["authToken"].httpOnly
    requires WellFormed(ScriptVisible(jar, order))
    ensures TokenFromCookieString(CookieString(ScriptVisible(jar, order))) == None
  {
    ReadsTheFirstSessionCookie(ScriptVisible(jar, order));
  }

  /** What the logout request came to: a response, `ok` or not, or a thrown error. */
  datatype FetchOutcome = Responded(ok: bool) | Threw

  /** The page's state: the `username` shown (`None` once it has been set to `undefined`) and
      the routes pushed so far. */
  class LogoutPage {
    var username: Option<string>
    var pushed: seq<string>

    constructor ()
      ensures username == Some("") && pushed == []
    {
      username := Some("");
      pushed := [];
    }

    /** The mount effect: a truthy token is decoded without verification; reading `username`
        from a `null` result throws, which is caught and changes nothing. */
    method Mount(cookie: string, lib: Jwt.Library)
      modifies this
      ensures pushed == old(pushed)
      ensures var t := TokenFromCookieString(cookie);
        (t.Some? && t.value != "" && lib.decode(t.value).Some? ==> username == lib.decode(t.value).value.username) &&
        (!(t.Some? && t.value != "" && lib.decode(t.value).Some?) ==> username == old(username))
    {
      var token := TokenFromCookieString(cookie);
      if token.Some? && token.value != "" {
        var decoded := lib.decode(token.value);
        if decoded.Some? {
          username := decoded.value.username;
        }
      }
    }

    /** `handleLogout`: every outcome of the request leads to `/login`. */
    method Logout(outcome: FetchOutcome)
      modifies this
      ensures pushed == old(pushed) + ["/login"] && username == old(username)
    {
      match outcome
      case Responded(ok) =>
        if ok {
          pushed := pushed + ["/login"];
        } else {
          pushed := pushed + ["/login"];
        }
      case Threw =>
        pushed := pushed + ["/login"];
    }
  }
}
