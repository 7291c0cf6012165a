/** `construct_json(body, id)` in src/lambda_function.py: it sets `body['id']`,
    applies the counter rule to `body['count']`, and returns `json.dumps(body)`. */
module Payload {
  import opened Wrappers
  import opened Json
  import opened JsonText

  const ID_KEY := "id"
  const COUNT_KEY := "count"
  const COUNT_STEP := 10

  /** `isinstance(v, int)`: a Python bool is an int too. */
  predicate IsPyInt(v: Value) {
    v.Int? || v.Bool?
  }

  /** `int(v)` for an int or a bool. */
  function PyInt(v: Value): int
    requires IsPyInt(v)
  {
    if v.Int? then v.i else if v.b then 1 else 0
  }

  /** The value the counter rule gives `count`, from what `count` held before (if anything). */
  function NewCount(current: Option<Value>): int
  {
    if current.Some? && IsPyInt(current.value) then PyInt(current.value) + COUNT_STEP else COUNT_STEP
  }

  /** The fields of `body` once `construct_json` has updated it. */
  function Enrich(fields: seq<Field>, id: string): seq<Field>
  {
    var withId := Set(fields, ID_KEY, Str(id));
    Set(withId, COUNT_KEY, Int(NewCount(Get(withId, COUNT_KEY))))
  }

  /** A Python dict the handler passes by reference and `construct_json` updates in place. */
  class Dict {
    var fields: seq<Field>

    constructor (fields: seq<Field>)
      ensures this.fields == fields
    {
      this.fields := fields;
    }

    /** `d[key]`, or None where Python raises KeyError. */
    method Lookup(key: string) returns (r: Option<Value>)
      ensures r == Get(fields, key)
    {
      r := Get(fields, key);
    }

    /** `d[key] = v`. */
    method SetItem(key: string, v: Value)
      modifies this
      ensures fields == Set(old(fields), key, v)
    {
      fields := Set(fields, key, v);
    }
  }

  method ConstructJson(body: Dict, id: string) returns (text: string)
    modifies body
    ensures body.fields == Enrich(old(body.fields), id)
    ensures text == Dumps(Obj(body.fields))
  {
    body.SetItem(ID_KEY, Str(id));
    var current := body.Lookup(COUNT_KEY);
    if current.Some? && IsPyInt(current.value) {
      body.SetItem(COUNT_KEY, Int(PyInt(current.value) + COUNT_STEP));
    } else {
      body.SetItem(COUNT_KEY, Int(COUNT_STEP));
    }
    text := Dumps(Obj(body.fields));
  }

  /** `id` holds the given id afterwards, whether or not the body had one. */
  lemma EnrichSetsId(fields: seq<Field>, id: string)
    ensures Get(Enrich(fields, id), ID_KEY) == Some(Str(id))
  {
    var withId := Set(fields, ID_KEY, Str(id));
    SetGet(fields, ID_KEY, Str(id), COUNT_KEY);
    SetGet(withId, COUNT_KEY, Int(NewCount(Get(withId, COUNT_KEY))), ID_KEY);
  }

  /** The counter rule: an int `count` (a bool counting as 0 or 1) grows by 10;
      anything else, or no `count` at all, becomes 10. */
  lemma EnrichCount(fields: seq<Field>, id: string)
    ensures var before, after := Get(fields, COUNT_KEY), Get(Enrich(fields, id), COUNT_KEY);
      && (before.Some? && before.value.Int? ==> after == Some(Int(before.value.i + 10)))
      && (before == Some(Bool(true)) ==> after == Some(Int(11)))
      && (before == Some(Bool(false)) ==> after == Some(Int(10)))
      && (before.None? || !IsPyInt(before.value) ==> after == Some(Int(10)))
  {
    var withId := Set(fields, ID_KEY, Str(id));
    SetGet(fields, ID_KEY, Str(id), COUNT_KEY);
    SetGet(withId, COUNT_KEY, Int(NewCount(Get(withId, COUNT_KEY))), ID_KEY);
  }

  /** Every key other than `id` and `count` keeps its value. */
  lemma EnrichKeepsOthers(fields: seq<Field>, id: string, key: string)
    requires key != ID_KEY && key != COUNT_KEY
    ensures Get(Enrich(fields, id), key) == Get(fields, key)
  {
    var withId := Set(fields, ID_KEY, Str(id));
    SetGet(fields, ID_KEY, Str(id), key);
    SetGet(withId, COUNT_KEY, Int(NewCount(Get(withId, COUNT_KEY))), key);
  }

  /** Keys already present stay where they were; a missing `id` and a missing
      `count` are appended, `id` first. */
  lemma EnrichKeys(fields: seq<Field>, id: string)
    ensures Keys(Enrich(fields, id)) ==
      Keys(fields)
      + (if Contains(fields, ID_KEY) then [] else [ID_KEY])
      + (if Contains(fields, COUNT_KEY) then [] else [COUNT_KEY])
    ensures DistinctKeys(fields) ==> DistinctKeys(Enrich(fields, id))
  {
    var withId := Set(fields, ID_KEY, Str(id));
    var count := Int(NewCount(Get(withId, COUNT_KEY)));
    assert Enrich(fields, id) == Set(withId, COUNT_KEY, count);
    SetKeys(fields, ID_KEY, Str(id));
    SetKeys(withId, COUNT_KEY, count);
    SetGet(fields, ID_KEY, Str(id), COUNT_KEY);
    assert Contains(withId, COUNT_KEY) == Contains(fields, COUNT_KEY);
  }

  /** The field at every position whose key is neither `id` nor `count` is untouched. */
  lemma EnrichKeepsPositions(fields: seq<Field>, id: string)
    ensures |Enrich(fields, id)| >= |fields|
    ensures forall i :: 0 <= i < |fields| && fields[i].key != ID_KEY && fields[i].key != COUNT_KEY ==>
      Enrich(fields, id)[i] == fields[i]
  {
    var withId := Set(fields, ID_KEY, Str(id));
    SetPositions(fields, ID_KEY, Str(id));
    SetPositions(withId, COUNT_KEY, Int(NewCount(Get(withId, COUNT_KEY))));
  }

  lemma SetPositions(fields: seq<Field>, key: string, v: Value)
    ensures |Set(fields, key, v)| >= |fields|
    ensures forall i :: 0 <= i < |fields| && fields[i].key != key ==> Set(fields, key, v)[i] == fields[i]
  {
  }

  /** `construct_json({}, id)` is `json.dumps({'id': id, 'count': 10})`. */
  lemma EmptyBody(id: string)
    requires IsPlain(id)
    ensures Dumps(Obj(Enrich([], id))) == "{\"id\": \"" + id + "\", \"count\": 10}"
  {
    var a, b := Field(ID_KEY, Str(id)), Field(COUNT_KEY, Int(10));
    calc {
      Dumps(Obj(Enrich([], id)));
      { EnrichEmpty(id); }
      Dumps(Obj([a, b]));
      { DumpsPair(a, b); }
      "{" + (Quote(ID_KEY) + ": " + Dumps(a.value)) + ", " + (Quote(COUNT_KEY) + ": " + Dumps(b.value)) + "}";
      { EscapePlain(ID_KEY); EscapePlain(COUNT_KEY); EscapePlain(id); DumpsTen(); }
      "{" + ("\"" + ID_KEY + "\"" + ": " + ("\"" + id + "\"")) + ", "
        + ("\"" + COUNT_KEY + "\"" + ": " + "10") + "}";
      { PairText(id); }
      "{\"id\": \"" + id + "\", \"count\": 10}";
    }
  }

  lemma DumpsTen()
    ensures Dumps(Int(10)) == "10"
  {
  }

  lemma PairText(id: string)
    ensures "{" + ("\"" + ID_KEY + "\"" + ": " + ("\"" + id + "\"")) + ", "
      + ("\"" + COUNT_KEY + "\"" + ": " + "10") + "}" == "{\"id\": \"" + id + "\", \"count\": 10}"
  {
  }

  lemma EnrichEmpty(id: string)
    ensures Enrich([], id) == [Field(ID_KEY, Str(id)), Field(COUNT_KEY, Int(10))]
  {
    assert Set([], ID_KEY, Str(id)) == [Field(ID_KEY, Str(id))];
    IndexOfAppend([], Field(ID_KEY, Str(id)), COUNT_KEY);
  }

  lemma DumpsPair(a: Field, b: Field)
    ensures Dumps(Obj([a, b])) ==
      "{" + (Quote(a.key) + ": " + Dumps(a.value)) + ", " + (Quote(b.key) + ": " + Dumps(b.value)) + "}"
  {
    var fields := [a, b];
    var x, y := Quote(a.key) + ": " + Dumps(a.value), Quote(b.key) + ": " + Dumps(b.value);
    var parts := seq(|fields|, k requires 0 <= k < |fields| =>
      Quote(fields[k].key) + ": " + Dumps(fields[k].value));
    assert Dumps(Obj(fields)) == "{" + JoinWith(parts, ", ") + "}";
    assert parts == [x, y];
    JoinTwo(x, y, ", ");
  }

  lemma JoinTwo(x: string, y: string, sep: string)
    ensures JoinWith([x, y], sep) == x + sep + y
  {
    assert [x, y][1..] == [y];
  }

  /** `construct_json({'id': 'temp', 'count': 7}, id)` overwrites the id and counts 17. */
  lemma CountedBody(id: string)
    ensures Enrich([Field(ID_KEY, Str("temp")), Field(COUNT_KEY, Int(7))], id)
      == [Field(ID_KEY, Str(id)), Field(COUNT_KEY, Int(17))]
  {
    var fields := [Field(ID_KEY, Str("temp")), Field(COUNT_KEY, Int(7))];
    var withId := [Field(ID_KEY, Str(id)), Field(COUNT_KEY, Int(7))];
    assert ID_KEY != COUNT_KEY;
    assert IndexOf(fields, ID_KEY) == Some(0);
    assert Set(fields, ID_KEY, Str(id)) == withId;
    assert IndexOf(withId[1..], COUNT_KEY) == Some(0);
    assert IndexOf(withId, COUNT_KEY) == Some(1);
  }
}
