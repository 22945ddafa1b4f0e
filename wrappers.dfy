/** Option and Result, the two failure-carrying datatypes the rest of the model uses
    for JavaScript's `null`/`undefined` and for thrown errors. */
module Wrappers {

  /** `None` stands for a JavaScript `null` or `undefined`. */
  datatype Option<+T> = None | Some(value: T) {
    function GetOr(default: T): T {
      match this
      case Some(v) => v
      case None => default
    }
  }

  /** `Err` carries the message of an error the source throws. */
  datatype Result<+R, +E> = Ok(value: R) | Err(error: E)

  /** `err instanceof Error ? err.message : 'Ein Fehler ist aufgetreten'`, the text the
      dashboard components show for a thrown value; `None` is a thrown value that is not an
      `Error`. */
  function ErrorText(e: Option<string>): string {
    if e.Some? then e.value else "Ein Fehler ist aufgetreten"
  }

  /** Fetching a list per key, one key after the other, and concatenating the lists; the first
      fetch that fails ends the whole call with its error. */
  function CollectAll<K, M, E>(keys: seq<K>, fetch: K -> Result<seq<M>, E>): Result<seq<M>, E>
  {
    if keys == [] then Ok([])
    else match fetch(keys[0])
      case Err(e) => Err(e)
      case Ok(first) =>
        match CollectAll(keys[1..], fetch)
        case Err(e) => Err(e)
        case Ok(rest) => Ok(first + rest)
  }

  /** Fetching one more key after a successful run appends its list, or fails with its error. */
  lemma {:induction false} CollectAllSnoc<K, M, E>(keys: seq<K>, key: K, fetch: K -> Result<seq<M>, E>, got: seq<M>)
    requires CollectAll(keys, fetch) == Ok(got)
    ensures fetch(key).Err? ==> CollectAll(keys + [key], fetch) == Err(fetch(key).error)
    ensures fetch(key).Ok? ==> CollectAll(keys + [key], fetch) == Ok(got + fetch(key).value)
  {
    if keys == [] {
      assert keys + [key] == [key];
      assert [key][1..] == [];
      if fetch(key).Ok? {
        assert got + fetch(key).value == fetch(key).value + [];
      }
    } else {
      var first := fetch(keys[0]).value;
      var rest := CollectAll(keys[1..], fetch).value;
      assert (keys + [key])[1..] == keys[1..] + [key];
      CollectAllSnoc(keys[1..], key, fetch, rest);
      if fetch(key).Ok? {
        assert got + fetch(key).value == first + (rest + fetch(key).value);
      }
    }
  }

  /** Once a fetch has failed, fetching more keys keeps that error. */
  lemma {:induction false} CollectAllFailed<K, M, E>(keys: seq<K>, more: seq<K>, fetch: K -> Result<seq<M>, E>)
    requires CollectAll(keys, fetch).Err?
    ensures CollectAll(keys + more, fetch) == CollectAll(keys, fetch)
  {
    if fetch(keys[0]).Ok? {
      assert (keys + more)[1..] == keys[1..] + more;
      CollectAllFailed(keys[1..], more, fetch);
    }
  }

  /** The whole call succeeds exactly when every fetch does, and then holds exactly the
      fetched elements; otherwise its error is that of the first fetch that failed. */
  lemma CollectAllCases<K, M, E>(keys: seq<K>, fetch: K -> Result<seq<M>, E>)
    ensures CollectAll(keys, fetch).Ok? <==> forall i :: 0 <= i < |keys| ==> fetch(keys[i]).Ok?
    ensures CollectAll(keys, fetch).Err? ==>
      (exists i :: 0 <= i < |keys| && fetch(keys[i]) == Err(CollectAll(keys, fetch).error) &&
         forall j :: 0 <= j < i ==> fetch(keys[j]).Ok?)
    ensures CollectAll(keys, fetch).Ok? ==>
      (forall m :: m in CollectAll(keys, fetch).value <==>
         exists i :: 0 <= i < |keys| && fetch(keys[i]).Ok? && m in fetch(keys[i]).value)
  {
    CollectAllOutcome(keys, fetch);
    if CollectAll(keys, fetch).Ok? {
      forall m ensures m in CollectAll(keys, fetch).value <==>
        exists i :: 0 <= i < |keys| && fetch(keys[i]).Ok? && m in fetch(keys[i]).value
      {
        CollectAllMember(keys, fetch, m);
      }
    }
  }

  lemma {:induction false} CollectAllOutcome<K, M, E>(keys: seq<K>, fetch: K -> Result<seq<M>, E>)
    ensures CollectAll(keys, fetch).Ok? <==> forall i :: 0 <= i < |keys| ==> fetch(keys[i]).Ok?
    ensures CollectAll(keys, fetch).Err? ==>
      (exists i :: 0 <= i < |keys| && fetch(keys[i]) == Err(CollectAll(keys, fetch).error) &&
         forall j :: 0 <= j < i ==> fetch(keys[j]).Ok?)
  {
    if keys != [] {
      var tail := keys[1..];
      CollectAllOutcome(tail, fetch);
      assert forall i :: 1 <= i < |keys| ==> keys[i] == tail[i - 1];
      if fetch(keys[0]).Ok? && CollectAll(tail, fetch).Err? {
        var i :| 0 <= i < |tail| && fetch(tail[i]) == Err(CollectAll(tail, fetch).error) &&
          forall j :: 0 <= j < i ==> fetch(tail[j]).Ok?;
        assert fetch(keys[i + 1]) == Err(CollectAll(keys, fetch).error);
        assert forall j :: 0 <= j < i + 1 ==> fetch(keys[j]).Ok? by {
          assert forall j :: 1 <= j < i + 1 ==> keys[j] == tail[j - 1];
        }
      }
    }
  }

  lemma {:induction false} CollectAllMember<K, M, E>(keys: seq<K>, fetch: K -> Result<seq<M>, E>, m: M)
    requires CollectAll(keys, fetch).Ok?
    ensures m in CollectAll(keys, fetch).value <==>
      exists i :: 0 <= i < |keys| && fetch(keys[i]).Ok? && m in fetch(keys[i]).value
  {
    if keys != [] {
      var tail := keys[1..];
      CollectAllMember(tail, fetch, m);
      assert CollectAll(keys, fetch).value == fetch(keys[0]).value + CollectAll(tail, fetch).value;
      if m in CollectAll(tail, fetch).value {
        var i :| 0 <= i < |tail| && fetch(tail[i]).Ok? && m in fetch(tail[i]).value;
        assert keys[i + 1] == tail[i];
      }
      if exists i :: 0 <= i < |keys| && fetch(keys[i]).Ok? && m in fetch(keys[i]).value {
        var i :| 0 <= i < |keys| && fetch(keys[i]).Ok? && m in fetch(keys[i]).value;
        if i > 0 {
          assert tail[i - 1] == keys[i];
        }
      }
    }
  }
}
