/** Parsed JSON values as Python's json module returns them. Objects keep their key order,
    as Python dicts do. Floating-point numbers are not modelled. */
module Json {
  import opened Wrappers
  import opened Strings

  datatype Json =
    | JNull
    | JBool(b: bool)
    | JInt(i: int)
    | JStr(s: string)
    | JArr(items: seq<Json>)
    | JObj(fields: seq<(string, Json)>)

  /** dict.get(key): the value of the first field with that key. */
  function Get(fields: seq<(string, Json)>, key: string): (r: Option<Json>)
    ensures r.Some? <==> exists i :: 0 <= i < |fields| && fields[i].0 == key
    ensures r.Some? ==> exists i :: 0 <= i < |fields| && fields[i] == (key, r.value)
  {
    if |fields| == 0 then None
    else if fields[0].0 == key then Some(fields[0].1)
    else
      var r := Get(fields[1..], key);
      assert forall i :: 0 <= i < |fields| - 1 ==> fields[1..][i] == fields[i + 1];
      r
  }

  /** No key occurs twice, as in a dict. */
  predicate DistinctKeys(fields: seq<(string, Json)>) {
    forall j, k :: 0 <= j < k < |fields| ==> fields[j].0 != fields[k].0
  }

  /** The value of the first field with the key is the one Get finds. */
  lemma {:induction false} GetAt(fields: seq<(string, Json)>, key: string, i: nat)
    requires i < |fields| && fields[i].0 == key
    requires forall j :: 0 <= j < i ==> fields[j].0 != key
    ensures Get(fields, key) == Some(fields[i].1)
    decreases i
  {
    if i > 0 {
      GetAt(fields[1..], key, i - 1);
    }
  }

  /** In fields with distinct keys every field is found under its key. */
  lemma GetDistinct(fields: seq<(string, Json)>, i: nat)
    requires DistinctKeys(fields) && i < |fields|
    ensures Get(fields, fields[i].0) == Some(fields[i].1)
  {
    GetAt(fields, fields[i].0, i);
  }

  /** A key among the first fields is found there. */
  lemma {:induction false} GetFirst(front: seq<(string, Json)>, key: string, back: seq<(string, Json)>)
    requires Get(front, key).Some?
    ensures Get(front + back, key) == Get(front, key)
    decreases |front|
  {
    if front[0].0 != key {
      assert (front + back)[1..] == front[1..] + back;
      GetFirst(front[1..], key, back);
    }
  }

  /** A key missing from the first fields is looked up in the rest. */
  lemma {:induction false} GetAfter(front: seq<(string, Json)>, key: string, back: seq<(string, Json)>)
    requires Get(front, key).None?
    ensures Get(front + back, key) == Get(back, key)
    decreases |front|
  {
    if front != [] {
      assert (front + back)[1..] == front[1..] + back;
      GetAfter(front[1..], key, back);
    } else {
      assert front + back == back;
    }
  }

  /** dict.get(key, default). */
  function GetOr(fields: seq<(string, Json)>, key: string, default: Json): Json {
    Get(fields, key).GetOr(default)
  }

  /** Python's truth value of a parsed JSON value. */
  predicate Truthy(j: Json) {
    match j
    case JNull => false
    case JBool(b) => b
    case JInt(i) => i != 0
    case JStr(s) => s != ""
    case JArr(items) => items != []
    case JObj(fields) => fields != []
  }

  /** Python's str() of a scalar JSON value; lists and dicts are shown by a placeholder. */
  function Show(j: Json): string {
    match j
    case JNull => "None"
    case JBool(b) => if b then "True" else "False"
    case JInt(i) => IntToString(i)
    case JStr(s) => s
    case JArr(_) => "[...]"
    case JObj(_) => "{...}"
  }

  /** What reading a JSON file produced: the file was missing, opening or reading it raised
      an OSError or its text was not JSON (JSONDecodeError), its bytes were not UTF-8, or it
      parsed to a value. */
  datatype ReadOutcome = Missing | Undecodable | NotUtf8 | Parsed(value: Json)

  /** Opening with encoding="utf-8" and reading bytes that are not UTF-8 raises
      UnicodeDecodeError, a subclass of ValueError (not of JSONDecodeError or OSError). */
  const UnicodeDecodeError: Failure := ValueError("UnicodeDecodeError")
}
