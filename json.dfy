/** The part of a decoded JSON document that the client looks at: values as
    serde_json's `Value` holds them, and its non-panicking indexing, where a
    missing key, an index out of range or a value of the wrong kind all give
    `Null`. */
module Json {
  import opened Wrappers

  /** A JSON value. An object maps each key to its value; numbers are kept as
      integers, which is all the client ever compares. */
  datatype Value =
    | Null
    | Bool(b: bool)
    | Number(n: int)
    | Str(s: string)
    | Array(items: seq<Value>)
    | Object(fields: map<string, Value>)
  {
    /** `value["key"]`: the field, or `Null` when this is not an object or has no such key. */
    function Field(key: string): (r: Value)
      ensures r != Null ==> Object? && key in fields && r == fields[key]
      ensures Object? && key in fields ==> r == fields[key]
    {
      if Object? && key in fields then fields[key] else Null
    }

    /** `value[i]`: the item, or `Null` when this is not an array or `i` is out of range. */
    function Item(i: nat): (r: Value)
      ensures r != Null ==> Array? && i < |items| && r == items[i]
      ensures Array? && i < |items| ==> r == items[i]
    {
      if Array? && i < |items| then items[i] else Null
    }

    /** `value.as_str()`: the text of a string value, and nothing for any other kind. */
    function AsStr(): (r: Option<string>)
      ensures r.Some? <==> Str?
      ensures r.Some? ==> this == Str(r.value)
    {
      if Str? then Some(s) else None
    }

    /** `value == "lit"`: holds of a string value with exactly that text and of nothing else. */
    predicate EqualsStr(lit: string)
      ensures EqualsStr(lit) <==> this == Str(lit)
    {
      Str? && s == lit
    }
  }

  /** One indexing step, `[key]` or `[i]`. */
  datatype Step = Key(key: string) | Index(index: nat)

  function Apply(v: Value, step: Step): Value
  {
    match step
    case Key(k) => v.Field(k)
    case Index(i) => v.Item(i)
  }

  /** `v[s0][s1]...`: the steps applied left to right. */
  function Walk(v: Value, path: seq<Step>): Value
    decreases |path|
  {
    if path == [] then v else Walk(Apply(v, path[0]), path[1..])
  }

  /** Indexing `Null` gives `Null`, however long the path. */
  lemma {:induction false} WalkNull(path: seq<Step>)
    ensures Walk(Null, path) == Null
    decreases |path|
  {
    if path != [] {
      WalkNull(path[1..]);
    }
  }

  /** Walking a path in two pieces is walking it in one. */
  lemma {:induction false} WalkConcat(v: Value, p: seq<Step>, q: seq<Step>)
    ensures Walk(v, p + q) == Walk(Walk(v, p), q)
    decreases |p|
  {
    if p != [] {
      assert (p + q)[0] == p[0];
      assert (p + q)[1..] == p[1..] + q;
      WalkConcat(Apply(v, p[0]), p[1..], q);
    } else {
      assert p + q == q;
    }
  }

  /** Once a prefix of a path is missing, the whole path is missing. */
  lemma MissingPrefix(v: Value, p: seq<Step>, q: seq<Step>)
    requires Walk(v, p) == Null
    ensures Walk(v, p + q) == Null
  {
    WalkConcat(v, p, q);
    WalkNull(q);
  }
}
