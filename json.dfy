/** Parsed JSON values as the program sees them, with Python's subscript and iteration. */
module JsonValues {
  import opened Errors

  /** A JSON object is an ordered list of members: the order of a Python dict is observable
      (the first enumerated workspace is the default selection). */
  datatype Json =
    | JNull
    | JBool(b: bool)
    | JNum(n: int)
    | JStr(s: string)
    | JArr(items: seq<Json>)
    | JObj(fields: seq<(string, Json)>)

  type Fields = seq<(string, Json)>

  /** The value of the first member named `key`, if any. */
  function Find(fields: Fields, key: string): (r: Option<Json>)
    ensures r.None? <==> forall i :: 0 <= i < |fields| ==> fields[i].0 != key
    ensures r.Some? ==> (key, r.value) in fields
  {
    FindFrom(fields, key, 0)
  }

  /** The value of the first member named `key` at position `from` or later. */
  function FindFrom(fields: Fields, key: string, from: nat): (r: Option<Json>)
    decreases |fields| - from
    ensures r.None? <==> forall i :: from <= i < |fields| ==> fields[i].0 != key
    ensures r.Some? ==> (key, r.value) in fields
  {
    if from >= |fields| then None
    else if fields[from].0 == key then Some(fields[from].1)
    else FindFrom(fields, key, from + 1)
  }

  /** The member names, in order (dict.keys()). */
  function Keys(fields: Fields): (ks: seq<string>)
    ensures |ks| == |fields|
    ensures forall i :: 0 <= i < |fields| ==> ks[i] == fields[i].0
  {
    if fields == [] then [] else [fields[0].0] + Keys(fields[1..])
  }

  /** Python's `value[key]`: only an object can be subscripted by a name. */
  function Get(j: Json, key: string): (r: Result<Json>)
    ensures r.Success? <==> j.JObj? && Find(j.fields, key).Some?
    ensures r.Success? ==> (key, r.value) in j.fields
    ensures j.JObj? && r.Failure? ==> r.error == KeyError(key)
  {
    match j
    case JObj(fields) =>
      (match Find(fields, key)
       case Some(v) => Success(v)
       case None => Failure(KeyError(key)))
    case _ => Failure(TypeError)
  }

  /** Subscripting an object by the name of its i-th member gives that member's value when
      no earlier member has the same name. */
  lemma GetMember(fields: Fields, i: nat)
    requires i < |fields|
    requires forall j :: 0 <= j < i ==> fields[j].0 != fields[i].0
    ensures Get(JObj(fields), fields[i].0) == Success(fields[i].1)
  {
    FindFromMember(fields, fields[i].0, 0, i);
  }

  lemma {:induction false} FindFromMember(fields: Fields, key: string, from: nat, i: nat)
    requires from <= i < |fields| && fields[i].0 == key
    requires forall j :: from <= j < i ==> fields[j].0 != key
    ensures FindFrom(fields, key, from) == Some(fields[i].1)
    decreases i - from
  {
    if from < i {
      FindFromMember(fields, key, from + 1, i);
    }
  }

  /** Nested lookup along a path of member names; None as soon as one step fails. */
  function At(j: Json, path: seq<string>): Option<Json> {
    AtFrom(j, path, 0)
  }

  function AtFrom(j: Json, path: seq<string>, from: nat): Option<Json>
    decreases |path| - from
  {
    if from >= |path| then Some(j)
    else match Get(j, path[from])
      case Success(v) => AtFrom(v, path, from + 1)
      case Failure(_) => None
  }

  /** Python's `iter(value)`: a list yields its items, an object its member names and a
      string its characters; any other value is not iterable. */
  function Iterate(j: Json): (r: Result<seq<Json>>)
    ensures j.JArr? ==> r == Success(j.items)
    ensures r.Success? ==> j.JArr? || j.JObj? || j.JStr?
  {
    match j
    case JArr(items) => Success(items)
    case JObj(fields) => Success(seq(|fields|, i requires 0 <= i < |fields| => JStr(fields[i].0)))
    case JStr(s) => Success(seq(|s|, i requires 0 <= i < |s| => JStr([s[i]])))
    case _ => Failure(TypeError)
  }
}
