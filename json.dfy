/** JSON-compatible Python values. A Python `dict` is an insertion-ordered list of
    fields; `dumps` writes the fields in that order, so the order is part of the value. */
module Json {
  import opened Wrappers

  datatype Value =
    | Null
    | Bool(b: bool)
    | Int(i: int)
    | Float(text: string)       // a float, kept as the text `json.dumps` writes for it
    | Str(s: string)
    | Arr(items: seq<Value>)
    | Obj(fields: seq<Field>)

  datatype Field = Field(key: string, value: Value)

  function Keys(fields: seq<Field>): (ks: seq<string>)
    ensures |ks| == |fields|
    ensures forall i :: 0 <= i < |fields| ==> ks[i] == fields[i].key
  {
    if fields == [] then [] else [fields[0].key] + Keys(fields[1..])
  }

  /** Python dict keys are unique. */
  predicate DistinctKeys(fields: seq<Field>) {
    forall i, j :: 0 <= i < j < |fields| ==> fields[i].key != fields[j].key
  }

  /** The position of `key`, if present. */
  function IndexOf(fields: seq<Field>, key: string): (r: Option<nat>)
    ensures r.Some? ==> r.value < |fields| && fields[r.value].key == key
    ensures r.Some? ==> forall j :: 0 <= j < r.value ==> fields[j].key != key
    ensures r.None? <==> forall j :: 0 <= j < |fields| ==> fields[j].key != key
  {
    if fields == [] then None
    else if fields[0].key == key then Some(0)
    else match IndexOf(fields[1..], key)
      case None => None
      case Some(i) => Some(i + 1)
  }

  /** `key in d`. */
  predicate Contains(fields: seq<Field>, key: string) {
    IndexOf(fields, key).Some?
  }

  /** `d[key]`, or None where Python raises `KeyError`. */
  function Get(fields: seq<Field>, key: string): (r: Option<Value>)
    ensures r.Some? <==> Contains(fields, key)
    ensures r.Some? ==> exists i :: 0 <= i < |fields| && fields[i] == Field(key, r.value)
  {
    match IndexOf(fields, key)
    case None => None
    case Some(i) => Some(fields[i].value)
  }

  /** `d[key] = v`: an existing key keeps its position and takes the new value; a
      new key is appended at the end. */
  function Set(fields: seq<Field>, key: string, v: Value): seq<Field>
  {
    match IndexOf(fields, key)
    case Some(i) => fields[i := Field(key, v)]
    case None => fields + [Field(key, v)]
  }

  lemma SetGet(fields: seq<Field>, key: string, v: Value, other: string)
    ensures Get(Set(fields, key, v), key) == Some(v)
    ensures other != key ==> Get(Set(fields, key, v), other) == Get(fields, other)
  {
    var r := Set(fields, key, v);
    match IndexOf(fields, key)
    case Some(i) =>
      IndexOfSame(fields, r, key);
      IndexOfSame(fields, r, other);
    case None =>
      IndexOfAppend(fields, Field(key, v), key);
      IndexOfAppend(fields, Field(key, v), other);
  }

  /** Assignment keeps the order of the keys: unchanged for a key already present,
      the new key last otherwise. */
  lemma SetKeys(fields: seq<Field>, key: string, v: Value)
    ensures Keys(Set(fields, key, v)) ==
      if Contains(fields, key) then Keys(fields) else Keys(fields) + [key]
    ensures DistinctKeys(fields) ==> DistinctKeys(Set(fields, key, v))
  {
  }

  /** Two lists with the same keys at the same positions find every key at the same index. */
  lemma {:induction false} IndexOfSame(a: seq<Field>, b: seq<Field>, key: string)
    requires Keys(a) == Keys(b)
    ensures IndexOf(a, key) == IndexOf(b, key)
  {
    if a != [] {
      assert Keys(a[1..]) == Keys(a)[1..] && Keys(b[1..]) == Keys(b)[1..];
      IndexOfSame(a[1..], b[1..], key);
    }
  }

  lemma {:induction false} IndexOfAppend(a: seq<Field>, f: Field, key: string)
    ensures IndexOf(a + [f], key) ==
      if IndexOf(a, key).Some? then IndexOf(a, key)
      else if f.key == key then Some(|a|) else None
  {
    if a != [] {
      assert (a + [f])[1..] == a[1..] + [f];
      IndexOfAppend(a[1..], f, key);
    }
  }
}
