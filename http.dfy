/** The JSON bodies and responses the portal's route handlers produce. */
module Http {
  import opened Wrappers
  import opened Strings

  /** A JSON value; an object keeps its keys in insertion order, as `JSON.stringify` prints them. */
  datatype Json =
    | Null
    | Bool(b: bool)
    | Num(n: int)
    | Str(s: string)
    | Arr(items: seq<Json>)
    | Obj(fields: seq<(string, Json)>)

  /** A field that may be `null` in a GROQ result, as JSON. */
  function OptStr(o: Option<string>): Json {
    match o
    case Some(s) => Str(s)
    case None => Null
  }

  /** The keys of an object, in order. */
  function Keys(j: Json): seq<string> {
    if j.Obj? then seq(|j.fields|, k requires 0 <= k < |j.fields| => j.fields[k].0) else []
  }

  /** `j[key]` for an object: the value of the first field with that key. */
  function Field(j: Json, key: string): Option<Json>
    decreases if j.Obj? then |j.fields| else 0
  {
    if !j.Obj? || j.fields == [] then None
    else if j.fields[0].0 == key then Some(j.fields[0].1)
    else Field(Obj(j.fields[1..]), key)
  }

  /** `j.length` for an array or a string; an object has no such property. */
  function Length(j: Json): Option<int> {
    match j
    case Arr(items) => Some(|items|)
    case Str(s) => Some(|s|)
    case _ => None
  }

  /** `j[i]`: an array's element, or an object's property named by the decimal numeral. */
  function Index(j: Json, i: nat): Option<Json> {
    match j
    case Arr(items) => if i < |items| then Some(items[i]) else None
    case Obj(_) => Field(j, NatToString(i))
    case _ => None
  }

  /** `j?.key`: `undefined` when `j` is `undefined` or `null` or has no such field. */
  function Member(j: Option<Json>, key: string): Option<Json> {
    if j.Some? && j.value.Obj? then Field(j.value, key) else None
  }

  /** Truthiness of a JSON value; `None` is `undefined`. */
  predicate JsTruthy(j: Option<Json>) {
    match j
    case None => false
    case Some(Null) => false
    case Some(Bool(b)) => b
    case Some(Num(n)) => n != 0
    case Some(Str(s)) => s != ""
    case Some(_) => true
  }

  /** An object lacks every key it does not list. */
  lemma {:induction false} FieldOfMissingKey(j: Json, key: string)
    requires key !in Keys(j)
    ensures Field(j, key).None?
    decreases if j.Obj? then |j.fields| else 0
  {
    if j.Obj? && j.fields != [] {
      assert Keys(j)[0] == j.fields[0].0;
      var rest := Obj(j.fields[1..]);
      assert forall k :: 0 <= k < |rest.fields| ==> Keys(rest)[k] == Keys(j)[k + 1];
      FieldOfMissingKey(rest, key);
    }
  }

  /** A field is found at the first position that holds its key. */
  lemma {:induction false} FieldAt(j: Json, k: nat)
    requires j.Obj? && k < |j.fields|
    requires forall i :: 0 <= i < k ==> j.fields[i].0 != j.fields[k].0
    ensures Field(j, j.fields[k].0) == Some(j.fields[k].1)
    decreases k
  {
    if k > 0 {
      var rest := Obj(j.fields[1..]);
      assert rest.fields[k - 1] == j.fields[k];
      FieldAt(rest, k - 1);
    }
  }

  /** The fields of a four-field object, each under its own key. */
  lemma FieldsOfFour(j: Json)
    requires j.Obj? && |j.fields| == 4
    requires j.fields[0].0 != j.fields[1].0 && j.fields[0].0 != j.fields[2].0 && j.fields[0].0 != j.fields[3].0
    requires j.fields[1].0 != j.fields[2].0 && j.fields[1].0 != j.fields[3].0 && j.fields[2].0 != j.fields[3].0
    ensures forall k :: 0 <= k < 4 ==> Field(j, j.fields[k].0) == Some(j.fields[k].1)
  {
    FieldAt(j, 0);
    FieldAt(j, 1);
    FieldAt(j, 2);
    FieldAt(j, 3);
  }

  /** `fields[key] = v`: the first field with that key gets the new value; without one, the
      field is added at the end. */
  function SetField(fields: seq<(string, Json)>, key: string, v: Json): seq<(string, Json)> {
    if fields == [] then [(key, v)]
    else if fields[0].0 == key then [(key, v)] + fields[1..]
    else [fields[0]] + SetField(fields[1..], key, v)
  }

  /** `j[key] = v` on an object. */
  function SetMember(j: Json, key: string, v: Json): (r: Json)
    requires j.Obj?
    ensures r.Obj?
  {
    Obj(SetField(j.fields, key, v))
  }

  /** After an assignment the key reads as the new value and every other key as before. */
  lemma {:induction false} FieldOfSetMember(j: Json, key: string, v: Json, other: string)
    requires j.Obj?
    ensures Field(SetMember(j, key, v), key) == Some(v)
    ensures other != key ==> Field(SetMember(j, key, v), other) == Field(j, other)
    decreases |j.fields|
  {
    var r := SetMember(j, key, v);
    if j.fields != [] && j.fields[0].0 != key {
      var rest := Obj(j.fields[1..]);
      FieldOfSetMember(rest, key, v, other);
      assert r.fields[1..] == SetMember(rest, key, v).fields;
    } else if j.fields != [] {
      assert r.fields[1..] == j.fields[1..];
    }
  }

  /** `{[key]: text}`, the shape of every error body. */
  function Message(key: string, text: string): Json {
    Obj([(key, Str(text))])
  }

  /** What a handler answers: a JSON response, possibly with a raw `Set-Cookie` header, or the
      framework's own 500 page for an exception the handler does not catch. */
  datatype Response =
    | Reply(status: int, body: Json, setCookie: Option<string>)
    | Unhandled
  {
    function Status(): int {
      if Reply? then status else 500
    }
  }

  /** `NextResponse.json(body, {status})`. */
  function JsonReply(status: int, body: Json): Response {
    Reply(status, body, None)
  }

  /** `NextResponse.json(body)`, whose status is 200. */
  function JsonOk(body: Json): Response {
    Reply(200, body, None)
  }
}
