/** Python values as the loaders and the output layer see them: parsed JSON
    and `Dict[str, Any]` records. Only the operations the modelled code
    applies to them are defined, with Python's rules for which of them raise.

    A dict is an association list in insertion order; Python dicts hold each
    key once, and a lookup here returns the first entry with the key. */
module PyValue {
  import opened Wrappers
  import opened Strings

  datatype Value =
    | VNone
    | VBool(b: bool)
    | VInt(i: int)
    | VFloat(r: real)
    | VStr(s: string)
    | VList(items: seq<Value>)
    | VTuple(items: seq<Value>)
    | VDict(entries: seq<(string, Value)>)

  /** The value stored under `key`, if any. */
  function Lookup<T>(entries: seq<(string, T)>, key: string): (r: Option<T>)
    ensures r.Some? <==> exists i :: 0 <= i < |entries| && entries[i].0 == key
    ensures r.Some? ==> exists i :: 0 <= i < |entries| && entries[i] == (key, r.value)
  {
    if |entries| == 0 then None
    else if entries[0].0 == key then Some(entries[0].1)
    else Lookup(entries[1..], key)
  }

  /** The entry at `i` is found when no earlier entry has its key. */
  lemma {:induction false} LookupAt<T>(entries: seq<(string, T)>, i: nat)
    requires i < |entries|
    requires forall j :: 0 <= j < i ==> entries[j].0 != entries[i].0
    ensures Lookup(entries, entries[i].0) == Some(entries[i].1)
  {
    if i > 0 {
      LookupAt(entries[1..], i - 1);
    }
  }

  /** The keys of an association list, in order. */
  function Keys<T>(entries: seq<(string, T)>): (ks: seq<string>)
    ensures |ks| == |entries|
    ensures forall i :: 0 <= i < |entries| ==> ks[i] == entries[i].0
  {
    seq(|entries|, i requires 0 <= i < |entries| => entries[i].0)
  }

  /** `type(v).__name__`. */
  function TypeName(v: Value): string
  {
    match v
    case VNone => "NoneType"
    case VBool(_) => "bool"
    case VInt(_) => "int"
    case VFloat(_) => "float"
    case VStr(_) => "str"
    case VList(_) => "list"
    case VTuple(_) => "tuple"
    case VDict(_) => "dict"
  }

  /** `bool(v)`: `None`, `False`, zero and empty containers are falsy. */
  predicate Truthy(v: Value)
  {
    match v
    case VNone => false
    case VBool(b) => b
    case VInt(i) => i != 0
    case VFloat(r) => r != 0.0
    case VStr(s) => |s| > 0
    case VList(items) => |items| > 0
    case VTuple(items) => |items| > 0
    case VDict(entries) => |entries| > 0
  }

  /** `isinstance(v, (int, float))`; `bool` is a subclass of `int`. */
  predicate IsNumber(v: Value)
  {
    v.VBool? || v.VInt? || v.VFloat?
  }

  /** `float(v)` for a number. */
  function ToReal(v: Value): real
    requires IsNumber(v)
  {
    match v
    case VBool(b) => if b then 1.0 else 0.0
    case VInt(i) => i as real
    case VFloat(r) => r
  }

  /** A number, or the `TypeError` arithmetic on anything else raises. */
  function AsNumber(v: Value): (r: Result<real>)
    ensures r.Ok? <==> IsNumber(v)
    ensures r.Ok? ==> r.value == ToReal(v)
  {
    if IsNumber(v) then Ok(ToReal(v))
    else Err(Error(TypeError, "unsupported operand type: '" + TypeName(v) + "'"))
  }

  /** `x in container` for a string `x`: key membership for a dict, element
      equality for a list or tuple, substring for a string; any other
      operand raises `TypeError`. */
  function Contains(container: Value, x: string): (r: Result<bool>)
    ensures container.VDict? ==> r == Ok(Lookup(container.entries, x).Some?)
    ensures r.Err? <==> !(container.VDict? || container.VList? || container.VTuple? || container.VStr?)
  {
    match container
    case VDict(entries) => Ok(Lookup(entries, x).Some?)
    case VList(items) => Ok(VStr(x) in items)
    case VTuple(items) => Ok(VStr(x) in items)
    case VStr(s) => Ok(IsSubstring(x, s))
    case _ => Err(Error(TypeError, "argument of type '" + TypeName(container) + "' is not iterable"))
  }

  /** `container[key]` for a string `key`: only a dict holding the key
      succeeds; a dict without it raises `KeyError`, anything else `TypeError`. */
  function GetItem(container: Value, key: string): (r: Result<Value>)
    ensures r.Ok? <==> container.VDict? && Lookup(container.entries, key).Some?
    ensures r.Ok? ==> r.value == Lookup(container.entries, key).value
    ensures r.Err? && container.VDict? ==> r.error.kind == KeyError
    ensures r.Err? && !container.VDict? ==> r.error.kind == TypeError
  {
    match container
    case VDict(entries) =>
      var found := Lookup(entries, key);
      if found.Some? then Ok(found.value) else Err(Error(KeyError, Quote(key)))
    case VList(_) => Err(Error(TypeError, "list indices must be integers or slices, not str"))
    case VTuple(_) => Err(Error(TypeError, "tuple indices must be integers or slices, not str"))
    case VStr(_) => Err(Error(TypeError, "string indices must be integers, not 'str'"))
    case _ => Err(Error(TypeError, "'" + TypeName(container) + "' object is not subscriptable"))
  }

  /** `container.get(key, default)`: only dicts have `get`. */
  function GetOr(container: Value, key: string, default: Value): (r: Result<Value>)
    ensures r.Ok? <==> container.VDict?
    ensures container.VDict? && Lookup(container.entries, key).Some? ==> r == Ok(Lookup(container.entries, key).value)
    ensures container.VDict? && Lookup(container.entries, key).None? ==> r == Ok(default)
  {
    if container.VDict? then
      var found := Lookup(container.entries, key);
      Ok(if found.Some? then found.value else default)
    else Err(Error(AttributeError, "'" + TypeName(container) + "' object has no attribute 'get'"))
  }

  /** `container.items()`: only dicts have `items`. */
  function Items(container: Value): (r: Result<seq<(string, Value)>>)
    ensures r.Ok? <==> container.VDict?
    ensures r.Ok? ==> r.value == container.entries
  {
    if container.VDict? then Ok(container.entries)
    else Err(Error(AttributeError, "'" + TypeName(container) + "' object has no attribute 'items'"))
  }

  /** Lists and dicts cannot be dict keys; a tuple can when its items can. */
  predicate Hashable(v: Value)
  {
    match v
    case VList(_) => false
    case VDict(_) => false
    case VTuple(items) => forall i :: 0 <= i < |items| ==> Hashable(items[i])
    case _ => true
  }

  /** `str(v)`; `floatRepr` is Python's shortest round-trip float formatting. */
  function Str(v: Value, floatRepr: real -> string): string
  {
    if v.VStr? then v.s else Repr(v, floatRepr)
  }

  /** `repr(v)`, with strings quoted by `Quote` (no escaping). */
  function Repr(v: Value, floatRepr: real -> string): string
    decreases v, 1
  {
    match v
    case VNone => "None"
    case VBool(b) => if b then "True" else "False"
    case VInt(i) => IntToString(i)
    case VFloat(r) => floatRepr(r)
    case VStr(s) => Quote(s)
    case VList(items) => "[" + Join(", ", ReprItems(v, items, floatRepr)) + "]"
    case VTuple(items) =>
      if |items| == 1 then "(" + Repr(items[0], floatRepr) + ",)"
      else "(" + Join(", ", ReprItems(v, items, floatRepr)) + ")"
    case VDict(entries) => "{" + Join(", ", ReprEntries(v, entries, floatRepr)) + "}"
  }

  function ReprItems(parent: Value, items: seq<Value>, floatRepr: real -> string): (r: seq<string>)
    requires forall i :: 0 <= i < |items| ==> items[i] < parent
    ensures |r| == |items|
    decreases parent, 0, |items|
  {
    if |items| == 0 then []
    else ReprItems(parent, items[..|items| - 1], floatRepr) + [Repr(items[|items| - 1], floatRepr)]
  }

  function ReprEntries(parent: Value, entries: seq<(string, Value)>, floatRepr: real -> string): (r: seq<string>)
    requires forall i :: 0 <= i < |entries| ==> entries[i].1 < parent
    ensures |r| == |entries|
    decreases parent, 0, |entries|
  {
    if |entries| == 0 then []
    else
      ReprEntries(parent, entries[..|entries| - 1], floatRepr)
        + [Quote(entries[|entries| - 1].0) + ": " + Repr(entries[|entries| - 1].1, floatRepr)]
  }
}
