/** The query-parameter list that `push` sends: `pushkey` and `text` always,
    then `desp` when the description is non-empty, then `type` when the type
    tag is not "text". */
module Params {
  import opened Wrappers

  /** One `name=value` query parameter, before URL-encoding. */
  datatype Param = Param(name: string, value: string)

  /** The names the list can hold. */
  const Names: set<string> := {"pushkey", "text", "desp", "type"}

  /** An absent description is sent as the empty one. */
  function DespText(desp: Option<string>): string
  {
    match desp
    case Some(d) => d
    case None => ""
  }

  /** The parameter list for a key, a body, a description and a type tag, in
      the order the client pushes them. */
  function Query(pushKey: string, text: string, desp: Option<string>, textType: string): seq<Param>
  {
    var d := DespText(desp);
    [Param("pushkey", pushKey), Param("text", text)]
      + (if d != "" then [Param("desp", d)] else [])
      + (if textType != "text" then [Param("type", textType)] else [])
  }

  /** The value of the first parameter with this name, as a server reads a query. */
  function Lookup(q: seq<Param>, name: string): Option<string>
  {
    if q == [] then None
    else if q[0].name == name then Some(q[0].value)
    else Lookup(q[1..], name)
  }

  predicate DistinctNames(q: seq<Param>)
  {
    forall i, j :: 0 <= i < j < |q| ==> q[i].name != q[j].name
  }

  /** What the client promises of the list, stated without building it:
      `pushkey` then `text` first, no name twice, no other names, `desp`
      carrying the non-empty description and absent otherwise, `type`
      carrying any tag but "text" and absent for "text", and `desp` before
      `type`. */
  predicate Specified(q: seq<Param>, pushKey: string, text: string, desp: Option<string>, textType: string)
  {
    && |q| >= 2
    && q[0] == Param("pushkey", pushKey)
    && q[1] == Param("text", text)
    && DistinctNames(q)
    && (forall i :: 0 <= i < |q| ==> q[i].name in Names)
    && Lookup(q, "desp") == (if DespText(desp) != "" then Some(DespText(desp)) else None)
    && Lookup(q, "type") == (if textType != "text" then Some(textType) else None)
    && (forall i, j :: 0 <= i < |q| && 0 <= j < |q| && q[i].name == "desp" && q[j].name == "type" ==> i < j)
  }

  /** A name no parameter carries is looked up as absent, and the other way round. */
  lemma {:induction false} LookupNone(q: seq<Param>, name: string)
    ensures Lookup(q, name) == None <==> forall i :: 0 <= i < |q| ==> q[i].name != name
  {
    if q != [] {
      LookupNone(q[1..], name);
      assert forall i :: 1 <= i < |q| ==> q[i] == q[1..][i - 1];
    }
  }

  /** A name that is looked up as present is carried, with that value, by some parameter. */
  lemma {:induction false} LookupSome(q: seq<Param>, name: string) returns (k: nat)
    requires Lookup(q, name).Some?
    ensures k < |q| && q[k] == Param(name, Lookup(q, name).value)
  {
    if q[0].name == name {
      k := 0;
    } else {
      var k' := LookupSome(q[1..], name);
      k := k' + 1;
    }
  }

  /** Looking up a name that neither of the first two parameters carries
      starts at the third. */
  lemma LookupPastHead(q: seq<Param>, name: string)
    requires |q| >= 2 && q[0].name != name && q[1].name != name
    ensures Lookup(q, name) == Lookup(q[2..], name)
  {
  }

  /** The list meets its description. */
  lemma QueryIsSpecified(pushKey: string, text: string, desp: Option<string>, textType: string)
    ensures Specified(Query(pushKey, text, desp, textType), pushKey, text, desp, textType)
  {
    var q := Query(pushKey, text, desp, textType);
    var d := DespText(desp);
    var rest := q[2..];
    LookupPastHead(q, "desp");
    LookupPastHead(q, "type");
    if d != "" && textType != "text" {
      assert rest == [Param("desp", d), Param("type", textType)];
      assert rest[1..] == [Param("type", textType)];
    } else if d != "" {
      assert rest == [Param("desp", d)];
      assert rest[1..] == [];
    } else if textType != "text" {
      assert rest == [Param("type", textType)];
      assert rest[1..] == [];
    } else {
      assert rest == [];
    }
  }

  /** A list with distinct names, all drawn from `s`, has at most `|s|` entries. */
  lemma {:induction false} DistinctWithin(q: seq<Param>, s: set<string>)
    requires DistinctNames(q)
    requires forall i :: 0 <= i < |q| ==> q[i].name in s
    ensures |q| <= |s|
  {
    if q != [] {
      var rest := s - {q[0].name};
      assert forall i :: 0 <= i < |q[1..]| ==> q[1..][i] == q[i + 1];
      DistinctWithin(q[1..], rest);
    }
  }

  /** A list meeting its description has between two and four entries, and
      every entry after the first two is `desp` or `type`. */
  lemma SpecifiedShape(q: seq<Param>, pushKey: string, text: string, desp: Option<string>, textType: string)
    requires Specified(q, pushKey, text, desp, textType)
    ensures 2 <= |q| <= 4
    ensures forall i :: 2 <= i < |q| ==> q[i].name == "desp" || q[i].name == "type"
  {
    assert forall i :: 2 <= i < |q| ==> q[i].name != q[0].name && q[i].name != q[1].name;
    TailWithin(q, {"desp", "type"});
  }

  /** The entries after the first two, counted against the names they can carry. */
  lemma TailWithin(q: seq<Param>, s: set<string>)
    requires |q| >= 2 && DistinctNames(q)
    requires forall i :: 2 <= i < |q| ==> q[i].name in s
    ensures |q| - 2 <= |s|
  {
    assert forall i :: 0 <= i < |q[2..]| ==> q[2..][i] == q[i + 2];
    DistinctWithin(q[2..], s);
  }

  /** The description pins the list down: any list that meets it is the one
      the client builds. */
  lemma SpecifiedIsQuery(q: seq<Param>, pushKey: string, text: string, desp: Option<string>, textType: string)
    requires Specified(q, pushKey, text, desp, textType)
    ensures q == Query(pushKey, text, desp, textType)
  {
    SpecifiedShape(q, pushKey, text, desp, textType);
    var d := DespText(desp);
    var expected := Query(pushKey, text, desp, textType);
    var hasDesp := d != "";
    var hasType := textType != "text";
    if !hasDesp {
      LookupNone(q, "desp");
    }
    if !hasType {
      LookupNone(q, "type");
    }
    if hasDesp && hasType {
      var i := LookupSome(q, "desp");
      var j := LookupSome(q, "type");
      assert i < j;
      assert i == 2 && j == 3 && |q| == 4;
    } else if hasDesp {
      var i := LookupSome(q, "desp");
      TailWithin(q, {"desp"});
      assert i == 2 && |q| == 3;
    } else if hasType {
      var j := LookupSome(q, "type");
      TailWithin(q, {"type"});
      assert j == 2 && |q| == 3;
    } else {
      TailWithin(q, {});
      assert |q| == 2;
    }
    assert |q| == |expected|;
    assert forall i :: 0 <= i < |q| ==> q[i] == expected[i];
  }

  /** The list has two to four entries and repeats no name. */
  lemma QueryBounds(pushKey: string, text: string, desp: Option<string>, textType: string)
    ensures var q := Query(pushKey, text, desp, textType);
      2 <= |q| <= 4 && DistinctNames(q)
  {
  }

  /** An absent description and an empty one give the same list. */
  lemma AbsentDescriptionIsEmpty(pushKey: string, text: string, textType: string)
    ensures Query(pushKey, text, None, textType) == Query(pushKey, text, Some(""), textType)
    ensures Lookup(Query(pushKey, text, None, textType), "desp") == None
  {
    QueryIsSpecified(pushKey, text, None, textType);
  }
}
