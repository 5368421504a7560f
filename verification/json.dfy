/** A JSON value as `json.loads` hands it to the extraction code, and the
    Python operations the code applies to it: `d[k]`, `d.get(k, default)`,
    `k in x`, `for x in v`, truthiness, and the numeric comparison `v < n`.
    Each raises the same kind of Python exception the interpreter would. */
module Json {
  import opened Wrappers
  import Strings

  datatype Json =
    | JNull
    | JStr(s: string)
    | JInt(i: int)
    | JFloat(f: real)
    | JList(items: seq<Json>)
    | JObj(fields: seq<(string, Json)>)

  /** The Python exceptions the modelled code can raise. */
  datatype PyError =
    | KeyError(key: string)
    | TypeError(detail: string)
    | AttributeError(detail: string)
    | IndexError
    | ValueError(detail: string)
    | ValidationError(field: string)

  type PyResult<T> = Result<T, PyError>

  // ---------------------------------------------------------------------------
  // Size: a termination measure for recursion into nested values
  // ---------------------------------------------------------------------------

  function Size(j: Json): nat {
    match j
    case JList(items) => 1 + ItemsSize(items)
    case JObj(fields) => 1 + FieldsSize(fields)
    case _ => 1
  }

  function ItemsSize(items: seq<Json>): nat {
    if |items| == 0 then 0 else Size(items[0]) + ItemsSize(items[1..])
  }

  function FieldsSize(fields: seq<(string, Json)>): nat {
    if |fields| == 0 then 0
    else
      var field := fields[0];
      assert field.1 < field;
      Size(field.1) + FieldsSize(fields[1..])
  }

  lemma {:induction false} ItemSmaller(items: seq<Json>, i: nat)
    requires i < |items|
    ensures Size(items[i]) <= ItemsSize(items)
  {
    if i > 0 {
      ItemSmaller(items[1..], i - 1);
    }
  }

  lemma {:induction false} FieldSmaller(fields: seq<(string, Json)>, i: nat)
    requires i < |fields|
    ensures Size(fields[i].1) <= FieldsSize(fields)
  {
    if i > 0 {
      FieldSmaller(fields[1..], i - 1);
    }
  }

  // ---------------------------------------------------------------------------
  // Dictionary access
  // ---------------------------------------------------------------------------

  /** Position of the binding a Python dict keeps for `k`: the last one, as
      `json.loads` lets a later duplicate key overwrite an earlier one. */
  function Find(fields: seq<(string, Json)>, k: string): (r: Option<nat>)
    ensures r.Some? ==> r.value < |fields| && fields[r.value].0 == k
    ensures r.Some? ==> forall i :: r.value < i < |fields| ==> fields[i].0 != k
    ensures r.None? <==> forall i :: 0 <= i < |fields| ==> fields[i].0 != k
  {
    if |fields| == 0 then None
    else if fields[|fields| - 1].0 == k then Some(|fields| - 1)
    else Find(fields[..|fields| - 1], k)
  }

  /** A key bound exactly once is found at its position. */
  lemma FindUnique(fields: seq<(string, Json)>, k: string, i: nat)
    requires i < |fields| && fields[i].0 == k
    requires forall m :: 0 <= m < |fields| && m != i ==> fields[m].0 != k
    ensures Find(fields, k) == Some(i)
  {
  }

  /** `k in d` for a dict `d`. */
  predicate HasKey(j: Json, k: string)
    requires j.JObj?
  {
    Find(j.fields, k).Some?
  }

  /** The value a dict holds for a key it has. */
  function Lookup(j: Json, k: string): (v: Json)
    requires j.JObj? && HasKey(j, k)
    ensures Size(v) < Size(j)
  {
    var i := Find(j.fields, k).value;
    FieldSmaller(j.fields, i);
    j.fields[i].1
  }

  /** `j[k]` with a string key: a dict lookup or KeyError; any other value is
      not subscriptable by a string. */
  function Index(j: Json, k: string): (r: PyResult<Json>)
    ensures r.Success? ==> j.JObj? && HasKey(j, k) && r.value == Lookup(j, k)
    ensures r.Success? ==> Size(r.value) < Size(j)
    ensures j.JObj? && !HasKey(j, k) ==> r == Failure(KeyError(k))
    ensures !j.JObj? ==> r.Failure? && r.error.TypeError?
  {
    match j
    case JObj(_) => if HasKey(j, k) then Success(Lookup(j, k)) else Failure(KeyError(k))
    case _ => Failure(TypeError("not subscriptable by a string"))
  }

  /** `j.get(k, default)`: only dicts have `get`. */
  function Get(j: Json, k: string, default: Json): (r: PyResult<Json>)
    ensures r.Success? <==> j.JObj?
    ensures j.JObj? && HasKey(j, k) ==> r == Success(Lookup(j, k))
    ensures j.JObj? && !HasKey(j, k) ==> r == Success(default)
  {
    match j
    case JObj(_) => Success(if HasKey(j, k) then Lookup(j, k) else default)
    case _ => Failure(AttributeError("object has no attribute 'get'"))
  }

  /** `k in j` for a string `k`: key test on a dict, substring test on a
      string, element test on a list, TypeError otherwise. */
  function In(k: string, j: Json): (r: PyResult<bool>)
    ensures j.JObj? ==> r == Success(HasKey(j, k))
    ensures j.JStr? ==> r == Success(Strings.Contains(j.s, k))
    ensures j.JList? ==> r == Success(JStr(k) in j.items)
    ensures r.Failure? <==> !(j.JObj? || j.JStr? || j.JList?)
  {
    match j
    case JObj(_) => Success(HasKey(j, k))
    case JStr(s) => Success(Strings.Contains(s, k))
    case JList(items) => Success(JStr(k) in items)
    case _ => Failure(TypeError("argument is not iterable"))
  }

  // ---------------------------------------------------------------------------
  // Iteration, truthiness, numbers
  // ---------------------------------------------------------------------------

  /** What `for x in j` visits: list items, dict keys, or the one-character
      strings of a string; numbers and None are not iterable. */
  function Iterate(j: Json): (r: PyResult<seq<Json>>)
    ensures j.JList? ==> r == Success(j.items)
    ensures r.Success? ==> forall x :: x in r.value ==> Size(x) < Size(j) || x.JStr?
    ensures r.Failure? <==> !(j.JObj? || j.JStr? || j.JList?)
  {
    match j
    case JList(items) =>
      assert forall x :: x in items ==> Size(x) < Size(j) by {
        forall x | x in items ensures Size(x) < Size(j) {
          var i :| 0 <= i < |items| && items[i] == x;
          ItemSmaller(items, i);
        }
      }
      Success(items)
    case JObj(fields) => Success(seq(|fields|, i requires 0 <= i < |fields| => JStr(fields[i].0)))
    case JStr(s) => Success(seq(|s|, i requires 0 <= i < |s| => JStr([s[i]])))
    case _ => Failure(TypeError("object is not iterable"))
  }

  /** Python truthiness: empty containers, empty strings, zero and None are false. */
  predicate Truthy(j: Json) {
    match j
    case JNull => false
    case JStr(s) => |s| > 0
    case JInt(i) => i != 0
    case JFloat(f) => f != 0.0
    case JList(items) => |items| > 0
    case JObj(fields) => |fields| > 0
  }

  /** `j < n` for an int `n`: numeric comparison, TypeError for anything else. */
  function LessThan(j: Json, n: int): (r: PyResult<bool>)
    ensures j.JInt? ==> r == Success(j.i < n)
    ensures j.JFloat? ==> r == Success(j.f < n as real)
    ensures r.Failure? <==> !(j.JInt? || j.JFloat?)
  {
    match j
    case JInt(i) => Success(i < n)
    case JFloat(f) => Success(f < n as real)
    case _ => Failure(TypeError("'<' not supported"))
  }

  // ---------------------------------------------------------------------------
  // Field validation of the data classes (lax mode)
  // ---------------------------------------------------------------------------

  /** A `str` field accepts a string only. */
  function AsStr(j: Json, field: string): (r: PyResult<string>)
    ensures r.Success? <==> j.JStr?
    ensures r.Success? ==> r.value == j.s
    ensures r.Failure? ==> r.error == ValidationError(field)
  {
    if j.JStr? then Success(j.s) else Failure(ValidationError(field))
  }

  /** An `Optional[str]` field accepts None or a string. */
  function AsOptStr(j: Json, field: string): (r: PyResult<Option<string>>)
    ensures r.Success? <==> (j.JNull? || j.JStr?)
    ensures j.JNull? ==> r == Success(None)
    ensures j.JStr? ==> r == Success(Some(j.s))
  {
    match j
    case JNull => Success(None)
    case JStr(s) => Success(Some(s))
    case _ => Failure(ValidationError(field))
  }

  /** An `int` field accepts an int, or a float without fractional part. */
  function AsInt(j: Json, field: string): (r: PyResult<int>)
    ensures j.JInt? ==> r == Success(j.i)
    ensures r.Success? ==> (j.JInt? && r.value == j.i) || (j.JFloat? && r.value as real == j.f)
    ensures j.JFloat? ==> (r.Success? <==> j.f == j.f.Floor as real)
    ensures !(j.JInt? || j.JFloat?) ==> r.Failure?
  {
    match j
    case JInt(i) => Success(i)
    case JFloat(f) => if f == f.Floor as real then Success(f.Floor) else Failure(ValidationError(field))
    case _ => Failure(ValidationError(field))
  }

  /** A `float` field accepts an int or a float. */
  function AsReal(j: Json, field: string): (r: PyResult<real>)
    ensures r.Success? <==> (j.JInt? || j.JFloat?)
    ensures j.JInt? ==> r == Success(j.i as real)
    ensures j.JFloat? ==> r == Success(j.f)
  {
    match j
    case JInt(i) => Success(i as real)
    case JFloat(f) => Success(f)
    case _ => Failure(ValidationError(field))
  }

  /** A number not below `n` that validates as an int is an int of at least `n`. */
  lemma NotBelow(j: Json, n: int, field: string)
    requires LessThan(j, n) == Success(false) && AsInt(j, field).Success?
    ensures AsInt(j, field).value >= n
  {
    if j.JFloat? {
      assert AsInt(j, field).value as real == j.f >= n as real;
    }
  }

  /** A `List[str]` field accepts a list of strings. */
  function AsStrList(j: Json, field: string): (r: PyResult<seq<string>>)
    ensures r.Success? <==> j.JList? && forall i :: 0 <= i < |j.items| ==> j.items[i].JStr?
    ensures r.Success? ==> |r.value| == |j.items| && forall i :: 0 <= i < |r.value| ==> j.items[i] == JStr(r.value[i])
  {
    match j
    case JList(items) =>
      if forall i :: 0 <= i < |items| ==> items[i].JStr? then
        Success(seq(|items|, i requires 0 <= i < |items| => items[i].s))
      else Failure(ValidationError(field))
    case _ => Failure(ValidationError(field))
  }
}
