/** JSON values as the `jedi` crate hands them to the core, and the path
    lookup `jedi::get(&[k0, k1, ...], &value)` with which the router pulls
    typed arguments out of an envelope.  Parsing and stringifying JSON text
    are external to the model. */
module Json {
  import opened Wrappers
  import opened Errors

  /** A parsed JSON value. Object members keep their order, which is what
      lets a serializer promise a field order. Numbers are integers. */
  datatype Json =
    | Null
    | Bool(b: bool)
    | Num(n: int)
    | Str(s: string)
    | Arr(items: seq<Json>)
    | Obj(fields: seq<(string, Json)>)

  /** `jedi::obj()`: the empty object every control command answers with. */
  const EmptyObject: Json := Obj([])

  const MinI32: int := -0x8000_0000
  const MaxI32: int := 0x7fff_ffff

  /** The value of the first member named `key`. */
  function Field(fields: seq<(string, Json)>, key: string): (r: Option<Json>)
    ensures r.None? <==> forall i :: 0 <= i < |fields| ==> fields[i].0 != key
    ensures r.Some? ==> exists i :: 0 <= i < |fields| && fields[i] == (key, r.value)
  {
    if fields == [] then None
    else if fields[0].0 == key then Some(fields[0].1)
    else
      var r := Field(fields[1..], key);
      assert r.Some? ==> exists i :: 0 <= i < |fields[1..]| && fields[1..][i] == (key, r.value);
      r
  }

  predicate IsDigit(c: char) {
    '0' <= c <= '9'
  }

  predicate AllDigits(s: string) {
    forall i :: 0 <= i < |s| ==> IsDigit(s[i])
  }

  function DecimalValue(s: string): nat
    requires AllDigits(s)
  {
    if s == [] then 0 else 10 * DecimalValue(s[..|s| - 1]) + (s[|s| - 1] as int - '0' as int)
  }

  /** A path key used on an array is read as a decimal element index. */
  function ArrayIndex(key: string): Option<nat> {
    if key != [] && AllDigits(key) then Some(DecimalValue(key)) else None
  }

  /** The keys the router uses for envelope elements name those elements. */
  lemma ElementKeys()
    ensures ArrayIndex("0") == Some(0) && ArrayIndex("1") == Some(1) && ArrayIndex("2") == Some(2)
    ensures ArrayIndex("3") == Some(3) && ArrayIndex("4") == Some(4)
    ensures ArrayIndex("id") == None
  {
    assert "0"[..0] == [] && "1"[..0] == [] && "2"[..0] == [] && "3"[..0] == [] && "4"[..0] == [];
    assert !IsDigit("id"[0]);
  }

  /** One step of a path: an element of an array or a member of an object. */
  function Child(v: Json, key: string): Option<Json> {
    match v
    case Arr(items) =>
      (match ArrayIndex(key)
       case Some(k) => if k < |items| then Some(items[k]) else None
       case None => None)
    case Obj(fields) => Field(fields, key)
    case _ => None
  }

  /** The value reached by following `path` from `v`, if there is one. */
  function At(v: Json, path: seq<string>): Option<Json>
    decreases |path|
  {
    if path == [] then Some(v)
    else
      match Child(v, path[0])
      case None => None
      case Some(c) => At(c, path[1..])
  }

  function Strings(items: seq<Json>): Option<seq<string>> {
    if items == [] then Some([])
    else
      match (items[0], Strings(items[1..]))
      case (Str(s), Some(rest)) => Some([s] + rest)
      case _ => None
  }

  /** `jedi::get::<String>`. */
  function GetString(v: Json, path: seq<string>): Result<string, TError> {
    match At(v, path)
    case Some(Str(s)) => Success(s)
    case _ => Failure(JsonPath(path))
  }

  /** `jedi::get::<Vec<String>>`. */
  function GetStrings(v: Json, path: seq<string>): Result<seq<string>, TError> {
    match At(v, path)
    case Some(Arr(items)) =>
      (match Strings(items)
       case Some(ss) => Success(ss)
       case None => Failure(JsonPath(path)))
    case _ => Failure(JsonPath(path))
  }

  /** `jedi::get::<i32>`: a number that does not fit in 32 bits is refused. */
  function GetI32(v: Json, path: seq<string>): Result<int, TError> {
    match At(v, path)
    case Some(Num(n)) => if MinI32 <= n <= MaxI32 then Success(n) else Failure(JsonPath(path))
    case _ => Failure(JsonPath(path))
  }

  /** `jedi::get` into a domain record (a note, a search query, ...): the
      record's own validation belongs to the collaborator that receives it. */
  function GetValue(v: Json, path: seq<string>): Result<Json, TError> {
    match At(v, path)
    case Some(x) => Success(x)
    case None => Failure(JsonPath(path))
  }
}
