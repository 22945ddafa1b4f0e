/** The Botpress connection check: the bot id from the environment must be a version-4 UUID
    (`isValidUUID`) before the client asks Botpress for the bot. The request's answer is a
    parameter. */
module BotpressTest {
  import opened Wrappers
  import opened Strings

  const NoBotId := "Keine Bot-ID konfiguriert"
  const InvalidBotId := "Ungültige Bot-ID: Bot-ID muss eine gültige UUID sein"
  const UnknownError := "Ein unbekannter Fehler ist aufgetreten"

  /** One position of `/^[0-9a-f]{8}-[0-9a-f]{4}-4[0-9a-f]{3}-[89ab][0-9a-f]{3}-[0-9a-f]{12}$/i`. */
  datatype Class = Hex | Hyphen | Version | Variant

  /** `[0-9a-f]` under the `i` flag, which folds only ASCII letters. */
  predicate IsHex(c: char) {
    IsDigit(c) || 'a' <= LowerChar(c) <= 'f'
  }

  predicate InClass(c: char, k: Class) {
    match k
    case Hex => IsHex(c)
    case Hyphen => c == '-'
    case Version => c == '4'
    case Variant => var l := LowerChar(c); l == '8' || l == '9' || l == 'a' || l == 'b'
  }

  /** The classes of the pattern's 36 positions. */
  function Pattern(): (p: seq<Class>)
    ensures |p| == 36
  {
    seq(8, _ => Hex) + [Hyphen] + seq(4, _ => Hex) + [Hyphen] + [Version] + seq(3, _ => Hex) + [Hyphen] +
    [Variant] + seq(3, _ => Hex) + [Hyphen] + seq(12, _ => Hex)
  }

  /** `isValidUUID`: the anchored pattern matches the whole string. */
  predicate IsValidUuid(s: string) {
    |s| == |Pattern()| && forall i :: 0 <= i < |s| ==> InClass(s[i], Pattern()[i])
  }

  predicate AllHex(g: string) {
    forall i :: 0 <= i < |g| ==> IsHex(g[i])
  }

  /** The pattern's positions, one by one. */
  lemma PatternAt(i: int)
    requires 0 <= i < 36
    ensures Pattern()[i] ==
      if i == 8 || i == 13 || i == 18 || i == 23 then Hyphen
      else if i == 14 then Version
      else if i == 19 then Variant
      else Hex
  {
  }

  /** A valid id is 36 characters long, with hyphens at positions 8, 13, 18 and 23, a '4'
      starting its third group (the version of section 4.1.3 of RFC 4122), 8, 9, a or b
      starting its fourth (the variant of section 4.1.1), and hex digits everywhere else; and
      every such string is valid. */
  lemma UuidLayout(s: string)
    ensures IsValidUuid(s) <==>
      |s| == 36 && s[8] == '-' && s[13] == '-' && s[18] == '-' && s[23] == '-' && s[14] == '4' &&
      InClass(s[19], Variant) &&
      forall i :: 0 <= i < 36 && i != 8 && i != 13 && i != 14 && i != 18 && i != 19 && i != 23 ==> IsHex(s[i])
  {
    if |s| == 36 {
      forall i | 0 <= i < 36 {
        PatternAt(i);
      }
    }
  }

  /** Five groups joined by hyphens form a valid id exactly when they are hex groups of 8, 4, 4,
      4 and 12 characters whose third starts with the version and whose fourth with the
      variant. */
  lemma UuidOfGroups(a: string, b: string, c: string, d: string, e: string)
    requires |a| == 8 && |b| == 4 && |c| == 4 && |d| == 4 && |e| == 12
    ensures IsValidUuid(a + "-" + b + "-" + c + "-" + d + "-" + e) <==>
      AllHex(a) && AllHex(b) && c[0] == '4' && AllHex(c[1..]) && InClass(d[0], Variant) && AllHex(d[1..]) && AllHex(e)
  {
    var s := a + "-" + b + "-" + c + "-" + d + "-" + e;
    UuidLayout(s);
    assert forall i :: 0 <= i < 8 ==> s[i] == a[i];
    assert forall i :: 0 <= i < 4 ==> s[9 + i] == b[i];
    assert forall i :: 0 <= i < 4 ==> s[14 + i] == c[i];
    assert forall i :: 0 <= i < 4 ==> s[19 + i] == d[i];
    assert forall i :: 0 <= i < 12 ==> s[24 + i] == e[i];
    if AllHex(a) && AllHex(b) && c[0] == '4' && AllHex(c[1..]) && InClass(d[0], Variant) && AllHex(d[1..]) && AllHex(e) {
      forall i | 0 <= i < 36 && i != 8 && i != 13 && i != 14 && i != 18 && i != 19 && i != 23
        ensures IsHex(s[i])
      {
        if i < 8 { } else if i < 13 { assert s[i] == b[i - 9]; }
        else if i < 18 { assert s[i] == c[1..][i - 15]; }
        else if i < 23 { assert s[i] == d[1..][i - 20]; }
        else { assert s[i] == e[i - 24]; }
      }
    }
    if IsValidUuid(s) {
      assert forall i :: 0 <= i < 3 ==> c[1..][i] == s[15 + i];
      assert forall i :: 0 <= i < 3 ==> d[1..][i] == s[20 + i];
    }
  }

  /** Matching ignores the case of the letters. */
  lemma UuidIgnoresCase(s: string)
    ensures IsValidUuid(ToLower(s)) <==> IsValidUuid(s)
  {
    forall i | 0 <= i < |s| && i < 36
      ensures InClass(ToLower(s)[i], Pattern()[i]) <==> InClass(s[i], Pattern()[i])
    {
      assert LowerChar(LowerChar(s[i])) == LowerChar(s[i]);
    }
  }

  datatype Status = Loading | Success | Failed

  /** The component's state. */
  class ConnectionCheck {
    var status: Status
    var error: Option<string>

    constructor ()
      ensures status == Loading && error.None?
    {
      status := Loading;
      error := None;
    }

    /** `initBotpress`: `configured` is `NEXT_PUBLIC_BOTPRESS_BOT_ID` and `getBot` the answer of
        Botpress (an `Error`'s message, or `None` for anything else thrown). Returns whether
        Botpress was asked. */
    method InitBotpress(configured: Option<string>, getBot: Result<(), Option<string>>)
      returns (asked: bool)
      modifies this
      ensures var botId := if configured.Some? then configured.value else "";
        asked == (botId != "" && IsValidUuid(botId)) &&
        (botId == "" ==> status == Failed && error == Some(NoBotId)) &&
        (botId != "" && !IsValidUuid(botId) ==> status == Failed && error == Some(InvalidBotId)) &&
        (asked && getBot.Ok? ==> status == Success && error == old(error)) &&
        (asked && getBot.Err? ==>
          status == Failed && error == Some(if getBot.error.Some? then getBot.error.value else UnknownError))
    {
      var botId := if configured.Some? then configured.value else "";
      asked := false;
      if botId == "" {
        error := Some(NoBotId);
        status := Failed;
        return;
      }
      if !IsValidUuid(botId) {
        error := Some(InvalidBotId);
        status := Failed;
        return;
      }
      asked := true;
      match getBot
      case Ok(_) =>
        status := Success;
      case Err(e) =>
        error := Some(if e.Some? then e.value else UnknownError);
        status := Failed;
    }
  }
}
