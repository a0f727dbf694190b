/**
 The Python values the grading client handles once `json.loads` has run, and
 the few pieces of Python semantics the client applies to them: truth values,
 hashing (set membership), `dict.get`, subscripting with `[...]`, `== 1`, and
 `json.loads` itself, which is taken as an oracle from text to a decoded value.
 */
module PyJson {

  datatype Option<+T> = None | Some(value: T)

  /** A value or the exception that Python would have raised instead. */
  datatype Result<+T, +E> = Success(value: T) | Failure(error: E) {
    predicate IsFailure() { Failure? }

    function PropagateFailure<U>(): Result<U, E>
      requires Failure?
    {
      Failure(error)
    }

    function Extract(): T
      requires Success?
    {
      value
    }
  }

  /** A decoded JSON document: None, bool, int, float, str, list or dict.
      Object keys are strings, as `json.loads` produces them; a repeated key
      in the text has already been resolved by the decoder. */
  datatype Json =
    | JNull
    | JBool(b: bool)
    | JInt(i: int)
    | JFloat(f: real)
    | JString(s: string)
    | JArray(items: seq<Json>)
    | JObject(fields: map<string, Json>)

  /** The exceptions raised by the operations modelled here, each with the
      text `str(e)` gives. */
  datatype PyException =
    | JSONDecodeError(message: string)
    | AttributeError(message: string)
    | TypeError(message: string)
    | KeyError(message: string)
    | IndexError(message: string)
    | ValueError(message: string)
    | RecursionError(message: string)

  /** `type(v).__name__` */
  function TypeName(v: Json): string
  {
    match v
    case JNull => "NoneType"
    case JBool(_) => "bool"
    case JInt(_) => "int"
    case JFloat(_) => "float"
    case JString(_) => "str"
    case JArray(_) => "list"
    case JObject(_) => "dict"
  }

  /** The values Python treats as false: None, False, zero and the empty containers. */
  const FalsyValues: set<Json> :=
    {JNull, JBool(false), JInt(0), JFloat(0.0), JString(""), JArray([]), JObject(map[])}

  /** Python's truth value, `bool(v)`: false exactly for one of the falsy values. */
  predicate Truthy(v: Json)
    ensures Truthy(v) <==> v !in FalsyValues
  {
    match v
    case JNull => false
    case JBool(b) => b
    case JInt(i) => i != 0
    case JFloat(f) => f != 0.0
    case JString(s) => s != ""
    case JArray(xs) => xs != []
    case JObject(m) => m != map[]
  }

  /** Lists and dicts have no hash, so they cannot be looked up in a set. */
  predicate Hashable(v: Json)
  {
    !v.JArray? && !v.JObject?
  }

  /** The number a bool, int or float stands for in Python's numeric tower,
      where `True` is 1 and `False` is 0; other values are not numbers. */
  function NumericValue(v: Json): Option<real>
  {
    match v
    case JBool(b) => Some(if b then 1.0 else 0.0)
    case JInt(i) => Some(i as real)
    case JFloat(f) => Some(f)
    case _ => None
  }

  /** `v == 1` in Python: true exactly of the values whose number is one, so
      `True == 1` and `1.0 == 1` both hold and no string, list or dict equals 1. */
  predicate EqualsOne(v: Json)
    ensures EqualsOne(v) <==> NumericValue(v) == Some(1.0)
  {
    v == JInt(1) || v == JFloat(1.0) || v == JBool(true)
  }

  /** `v in choices` for a set of strings: raises for an unhashable `v`, and
      is true only of a string in the set (no number, bool or None equals a string). */
  function InStringSet(v: Json, choices: set<string>): (r: Result<bool, PyException>)
    ensures r.Failure? <==> !Hashable(v)
    ensures r.Failure? ==> r.error.TypeError?
    ensures r == Success(true) <==> v.JString? && v.s in choices
  {
    if !Hashable(v) then Failure(TypeError("unhashable type: '" + TypeName(v) + "'"))
    else Success(v.JString? && v.s in choices)
  }

  /** `m.get(key, default)` on a dict. */
  function DictGet(m: map<string, Json>, key: string, default: Json): (r: Json)
    ensures key in m ==> r == m[key]
    ensures key !in m ==> r == default
  {
    if key in m then m[key] else default
  }

  /** `v.get(key, default)`: only a dict has a `get` method. */
  function Get(v: Json, key: string, default: Json): (r: Result<Json, PyException>)
    ensures r.Success? <==> v.JObject?
    ensures r.Failure? ==> r.error.AttributeError?
    ensures v.JObject? && key in v.fields ==> r == Success(v.fields[key])
    ensures v.JObject? && key !in v.fields ==> r == Success(default)
  {
    match v
    case JObject(m) => Success(DictGet(m, key, default))
    case _ => Failure(AttributeError("'" + TypeName(v) + "' object has no attribute 'get'"))
  }

  /** One step of a subscript chain such as `result["candidates"][0]`. */
  datatype Key = Field(name: string) | Index(i: nat)

  /** `v[k]` for a decoded value: a dict is indexed by its string keys (an
      integer is never one of them), a list by position, a string by position
      yielding a one-character string; anything else is not subscriptable. */
  function Subscript(v: Json, k: Key): (r: Result<Json, PyException>)
    ensures r.Failure? ==> r.error.KeyError? || r.error.IndexError? || r.error.TypeError?
    ensures r.Success? && k.Field? ==> v.JObject? && k.name in v.fields && r.value == v.fields[k.name]
    ensures r.Success? && k.Index? ==>
              || (v.JArray? && k.i < |v.items| && r.value == v.items[k.i])
              || (v.JString? && k.i < |v.s| && r.value == JString([v.s[k.i]]))
    ensures k.Field? && v.JObject? && k.name in v.fields ==> r.Success?
    ensures k.Index? && v.JArray? && k.i < |v.items| ==> r.Success?
    ensures k.Index? && v.JString? && k.i < |v.s| ==> r.Success?
  {
    match (v, k)
    case (JObject(m), Field(name)) =>
      if name in m then Success(m[name]) else Failure(KeyError("'" + name + "'"))
    case (JObject(_), Index(i)) => Failure(KeyError(IntText(i)))
    case (JArray(xs), Index(i)) =>
      if i < |xs| then Success(xs[i]) else Failure(IndexError("list index out of range"))
    case (JString(s), Index(i)) =>
      if i < |s| then Success(JString([s[i]])) else Failure(IndexError("string index out of range"))
    case (JArray(_), Field(_)) => Failure(TypeError("list indices must be integers or slices, not str"))
    case (JString(_), Field(_)) => Failure(TypeError("string indices must be integers, not 'str'"))
    case _ => Failure(TypeError("'" + TypeName(v) + "' object is not subscriptable"))
  }

  /** Decimal digits of a natural number, as `str(i)` writes them. */
  function IntText(i: nat): (r: string)
    ensures |r| >= 1
    ensures forall j :: 0 <= j < |r| ==> '0' <= r[j] <= '9'
  {
    var d := ['0' + (i % 10) as char];
    if i < 10 then d else IntText(i / 10) + d
  }

  /** `v[k0][k1]...`: the first failing step raises and the rest are not evaluated. */
  function GetPath(v: Json, path: seq<Key>): (r: Result<Json, PyException>)
    ensures r.Failure? ==> r.error.KeyError? || r.error.IndexError? || r.error.TypeError?
    ensures path == [] ==> r == Success(v)
    ensures |path| == 1 ==> r == Subscript(v, path[0])
    decreases |path|
  {
    if path == [] then Success(v)
    else
      var next :- Subscript(v, path[0]);
      GetPath(next, path[1..])
  }

  /** Reading along `p + q` is reading along `p` and then along `q` from what
      was found; a failure along `p` is the failure of the whole chain. */
  lemma {:induction false} GetPathAppend(v: Json, p: seq<Key>, q: seq<Key>)
    ensures GetPath(v, p + q) == match GetPath(v, p)
                                 case Success(w) => GetPath(w, q)
                                 case Failure(e) => Failure(e)
    decreases |p|
  {
    if p == [] {
      assert p + q == q;
    } else {
      assert (p + q)[0] == p[0];
      assert (p + q)[1..] == p[1..] + q;
      match Subscript(v, p[0])
      case Success(next) => GetPathAppend(next, p[1..], q);
      case Failure(_) =>
    }
  }

  /** What the standard library's JSON parser makes of a text: a decoded
      value, a `JSONDecodeError` for text that is not JSON, a `ValueError` for
      an integer literal longer than the interpreter's digit limit, or a
      `RecursionError` for nesting deeper than the interpreter's stack. */
  datatype Decoded =
    | Parsed(value: Json)
    | NotJson
    | TooManyDigits(message: string)
    | TooDeep(message: string)

  /** `json.loads(raw)`. Text is handed to the `decode` oracle, which stands
      for the parser; any other value is refused with a TypeError before
      parsing begins. */
  function Loads(decode: string -> Decoded, raw: Json): (r: Result<Json, PyException>)
    ensures raw.JString? && decode(raw.s).Parsed? ==> r == Success(decode(raw.s).value)
    ensures raw.JString? && decode(raw.s).NotJson? ==> r.Failure? && r.error.JSONDecodeError?
    ensures raw.JString? && decode(raw.s).TooManyDigits? ==> r == Failure(ValueError(decode(raw.s).message))
    ensures raw.JString? && decode(raw.s).TooDeep? ==> r == Failure(RecursionError(decode(raw.s).message))
    ensures !raw.JString? ==> r.Failure? && r.error.TypeError?
  {
    match raw
    case JString(text) =>
      (match decode(text)
       case Parsed(data) => Success(data)
       case NotJson => Failure(JSONDecodeError("Expecting value"))
       case TooManyDigits(message) => Failure(ValueError(message))
       case TooDeep(message) => Failure(RecursionError(message)))
    case _ => Failure(TypeError("the JSON object must be str, bytes or bytearray, not " + TypeName(raw)))
  }

  /** A document in which `path` leads to `leaf`: each dict holds only the
      next key of the path, and a list read at position `i` holds `i + 1`
      copies of the rest, so a path through position 0 builds single-element lists. */
  function Nest(path: seq<Key>, leaf: Json): Json
    decreases |path|
  {
    if path == [] then leaf
    else
      match path[0]
      case Field(name) => JObject(map[name := Nest(path[1..], leaf)])
      case Index(i) => JArray(seq(i + 1, _ => Nest(path[1..], leaf)))
  }

  /** Reading a `Nest` document back along its own path gives the leaf. */
  lemma {:induction false} GetPathNest(path: seq<Key>, leaf: Json)
    ensures GetPath(Nest(path, leaf), path) == Success(leaf)
    decreases |path|
  {
    if path != [] {
      GetPathNest(path[1..], leaf);
      match path[0]
      case Field(name) =>
        assert Subscript(Nest(path, leaf), path[0]) == Success(Nest(path[1..], leaf));
      case Index(i) =>
        assert Subscript(Nest(path, leaf), path[0]) == Success(Nest(path[1..], leaf));
    }
  }
}
