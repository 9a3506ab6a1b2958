/** Option and Result, the two failure-carrying shapes used throughout the model, and the
    lookup in an insertion-ordered list of named entries (a JavaScript object, a headers
    object, a translation table).
    `Option.None` stands for JavaScript's `undefined`/`null` where the source reads a
    value that may be missing; `Result.Err` carries the message of a thrown `Error`. */
module Common {

  datatype Option<+T> = None | Some(value: T)

  datatype Result<+T> = Ok(value: T) | Err(message: string)

  /** Entry `key` of an object, the first entry with that name. */
  function Get<V>(fields: seq<(string, V)>, key: string): Option<V>
  {
    if |fields| == 0 then None
    else if fields[0].0 == key then Some(fields[0].1)
    else Get(fields[1..], key)
  }

  /** `Object.keys`: the names of the entries in insertion order. */
  function Keys<V>(fields: seq<(string, V)>): (r: seq<string>)
    ensures |r| == |fields|
    ensures forall i :: 0 <= i < |fields| ==> r[i] == fields[i].0
  {
    if fields == [] then [] else [fields[0].0] + Keys(fields[1..])
  }

  /** An entry is found exactly when some entry has the key, and what is found is the
      value of one such entry. */
  lemma {:induction false} GetFinds<V>(fields: seq<(string, V)>, key: string)
    ensures Get(fields, key).None? <==> forall i :: 0 <= i < |fields| ==> fields[i].0 != key
    ensures Get(fields, key).Some? ==> exists i :: 0 <= i < |fields| && fields[i] == (key, Get(fields, key).value)
  {
    if |fields| > 0 && fields[0].0 != key {
      GetFinds(fields[1..], key);
      assert forall i :: 1 <= i < |fields| ==> fields[i] == fields[1..][i - 1];
      if Get(fields, key).Some? {
        var i :| 0 <= i < |fields| - 1 && fields[1..][i] == (key, Get(fields, key).value);
        assert fields[i + 1] == (key, Get(fields, key).value);
      }
    }
  }

  /** `Get` finds the first entry with the key. */
  lemma {:induction false} GetFirst<V>(fields: seq<(string, V)>, key: string, i: nat)
    requires i < |fields| && fields[i].0 == key
    requires forall j :: 0 <= j < i ==> fields[j].0 != key
    ensures Get(fields, key) == Some(fields[i].1)
    decreases i
  {
    if i > 0 {
      GetFirst(fields[1..], key, i - 1);
    }
  }
}
