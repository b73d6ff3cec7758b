/** Decoded JSON values as the list provider sees them after `response.json()`,
    with the handful of Python operations it applies to them: truthiness,
    `dict.get`, `in`, iteration, `str()` and `int()`. Operations that Python
    would refuse with an exception (AttributeError, TypeError, ValueError)
    return `Raise`. */
module PyJson {
  import opened PyText

  /** An object is its entries in insertion order; keys are taken to be
      distinct, and lookups use the first entry with the key. Floating-point
      numbers are not modelled. */
  datatype Json =
    | Null
    | Bool(b: bool)
    | Int(i: int)
    | Str(s: string)
    | Arr(elems: seq<Json>)
    | Obj(entries: seq<(string, Json)>)

  /** A Python computation that either yields a value or raises. */
  datatype Try<+T> = Ok(value: T) | Raise {
    predicate IsFailure() { Raise? }

    function PropagateFailure<U>(): Try<U>
      requires Raise?
    {
      Raise
    }

    function Extract(): T
      requires Ok?
    {
      value
    }
  }

  /** Python truthiness: None, False, 0, "", [] and {} are false. */
  predicate Truthy(j: Json)
  {
    match j
    case Null => false
    case Bool(b) => b
    case Int(i) => i != 0
    case Str(s) => s != ""
    case Arr(xs) => xs != []
    case Obj(es) => es != []
  }

  /** `a or b`. */
  function Or(a: Json, b: Json): Json
  {
    if Truthy(a) then a else b
  }

  /** `x == True` in Python also holds for the integer 1. */
  predicate EqualsTrue(j: Json)
  {
    j == Bool(true) || j == Int(1)
  }

  function Lookup(entries: seq<(string, Json)>, key: string): Option<Json>
    decreases |entries|
  {
    if entries == [] then None
    else if entries[0].0 == key then Some(entries[0].1)
    else Lookup(entries[1..], key)
  }

  /** `key in d` for a dict d. */
  predicate HasKey(j: Json, key: string)
  {
    j.Obj? && Lookup(j.entries, key).Some?
  }

  /** `d.get(key, default)` on a value already known to be a dict (any other
      value gives the default). */
  function Field(j: Json, key: string, default: Json): Json
  {
    match j
    case Obj(es) => (match Lookup(es, key) case Some(v) => v case None => default)
    case _ => default
  }

  /** `j.get(key, default)`: only a dict has `get`; on anything else Python
      raises AttributeError. */
  function Get(j: Json, key: string, default: Json): Try<Json>
  {
    if j.Obj? then Ok(Field(j, key, default)) else Raise
  }

  /** `key in j` for a string key: a key of a dict, an element of a list, a
      substring of a string; on a number, a boolean or None Python raises
      TypeError. */
  function Contains(j: Json, key: string): Try<bool>
  {
    match j
    case Obj(es) => Ok(Lookup(es, key).Some?)
    case Arr(xs) => Ok(Str(key) in xs)
    case Str(s) => Ok(IsInfix(key, s))
    case _ => Raise
  }

  /** The values `for x in j` visits: the elements of a list, the characters
      of a string (as one-character strings), the keys of a dict; anything
      else raises TypeError. */
  function Iterate(j: Json): Try<seq<Json>>
  {
    match j
    case Arr(xs) => Ok(xs)
    case Str(s) => Ok(seq(|s|, k requires 0 <= k < |s| => Str([s[k]])))
    case Obj(es) => Ok(seq(|es|, k requires 0 <= k < |es| => Str(es[k].0)))
    case _ => Raise
  }

  /** `d.items()`: only a dict has it. */
  function DictItems(j: Json): Try<seq<(string, Json)>>
  {
    if j.Obj? then Ok(j.entries) else Raise
  }

  /** `str(j)` (and an f-string hole): lists and dicts are printed by `repr`,
      which the model takes as a parameter. */
  function Show(j: Json, repr: Json -> string): string
  {
    match j
    case Null => "None"
    case Bool(b) => if b then "True" else "False"
    case Int(i) => IntToString(i)
    case Str(s) => s
    case Arr(_) => repr(j)
    case Obj(_) => repr(j)
  }

  /** `int(j)`: integers and booleans convert, a string must be a decimal
      numeral (ValueError otherwise), anything else is a TypeError. */
  function ToInt(j: Json): Try<int>
  {
    match j
    case Int(i) => Ok(i)
    case Bool(b) => Ok(if b then 1 else 0)
    case Str(s) => (match ParseIntText(s) case Some(n) => Ok(n) case None => Raise)
    case _ => Raise
  }

  /** `j.startswith(prefix)`: only a string has it. */
  function JsonStartsWith(j: Json, prefix: string): Try<bool>
  {
    if j.Str? then Ok(StartsWith(j.s, prefix)) else Raise
  }
}
