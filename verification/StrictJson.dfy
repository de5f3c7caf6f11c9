/**
 The duplicate-key gate in front of the SOAR routes: json.loads with an object_pairs_hook
 that refuses a repeated name, against the ordinary decoder the routes use afterwards.
 */
module StrictJson {
  import opened Text

  /** A parsed document before objects are built: pairs in document order, names possibly repeated. */
  datatype Raw = Leaf(text: string) | List(items: seq<Raw>) | Object(pairs: seq<Member>)

  datatype Member = Member(name: string, value: Raw)

  datatype Value = Scalar(text: string) | Array(items: seq<Value>) | Dict(entries: map<string, Value>)

  // ----- One object -----

  function LastWinsEntries(pairs: seq<(string, Value)>): map<string, Value> {
    if pairs == [] then map[] else LastWinsEntries(pairs[..|pairs| - 1])[pairs[|pairs| - 1].0 := pairs[|pairs| - 1].1]
  }

  ghost predicate DistinctNames(pairs: seq<(string, Value)>) {
    forall i, j :: 0 <= i < j < |pairs| ==> pairs[i].0 != pairs[j].0
  }

  lemma {:induction false} EntryNames(pairs: seq<(string, Value)>, name: string)
    ensures name in LastWinsEntries(pairs) <==> exists i :: 0 <= i < |pairs| && pairs[i].0 == name
  {
    if pairs != [] {
      var before := pairs[..|pairs| - 1];
      EntryNames(before, name);
      if i :| 0 <= i < |before| && before[i].0 == name { assert pairs[i].0 == name; }
      if i :| 0 <= i < |pairs| && pairs[i].0 == name && i < |pairs| - 1 { assert before[i].0 == name; }
    }
  }

  /** _json_object_pairs: build the dictionary, or refuse at the first repeated name. */
  method ObjectPairs(pairs: seq<(string, Value)>) returns (result: Option<map<string, Value>>)
    ensures result == if DistinctNames(pairs) then Some(LastWinsEntries(pairs)) else None
  {
    var built: map<string, Value> := map[];
    for i := 0 to |pairs|
      invariant built == LastWinsEntries(pairs[..i]) && DistinctNames(pairs[..i])
    {
      EntryNames(pairs[..i], pairs[i].0);
      if pairs[i].0 in built {
        var j :| 0 <= j < i && pairs[..i][j].0 == pairs[i].0;
        assert pairs[j].0 == pairs[i].0;
        return None;
      }
      built := built[pairs[i].0 := pairs[i].1];
      assert pairs[..i + 1][..i] == pairs[..i];
    }
    assert pairs[..|pairs|] == pairs;
    return Some(built);
  }

  // ----- Whole documents -----

  /** The ordinary decoder: the last value of a repeated name wins. */
  function Decode(raw: Raw): Value
    decreases raw, 1
  {
    match raw
    case Leaf(text) => Scalar(text)
    case List(items) => Array(DecodeItems(items))
    case Object(pairs) => Dict(LastWinsEntries(DecodePairs(pairs)))
  }

  function DecodeItems(items: seq<Raw>): (r: seq<Value>)
    ensures |r| == |items|
    decreases items, 0
  {
    if items == [] then [] else [Decode(items[0])] + DecodeItems(items[1..])
  }

  function DecodePairs(pairs: seq<Member>): (r: seq<(string, Value)>)
    ensures |r| == |pairs| && forall i :: 0 <= i < |pairs| ==> r[i].0 == pairs[i].name
    decreases pairs, 0
  {
    if pairs == [] then [] else [(pairs[0].name, DecodeMember(pairs[0]))] + DecodePairs(pairs[1..])
  }

  function DecodeMember(m: Member): Value
    decreases m, 2
  {
    Decode(m.value)
  }

  /** The strict decoder: the hook runs on every object, inner ones first, and any refusal is final. */
  ghost function DecodeStrict(raw: Raw): Option<Value>
    decreases raw, 1
  {
    match raw
    case Leaf(text) => Some(Scalar(text))
    case List(items) =>
      (match StrictItems(items) case Some(vs) => Some(Array(vs)) case None => None)
    case Object(pairs) =>
      match StrictPairs(pairs)
      case Some(ps) => if DistinctNames(ps) then Some(Dict(LastWinsEntries(ps))) else None
      case None => None
  }

  ghost function StrictItems(items: seq<Raw>): (r: Option<seq<Value>>)
    decreases items, 0
  {
    if items == [] then Some([])
    else
      var v := DecodeStrict(items[0]);
      var rest := StrictItems(items[1..]);
      if v.Some? && rest.Some? then Some([v.value] + rest.value) else None
  }

  ghost function StrictPairs(pairs: seq<Member>): (r: Option<seq<(string, Value)>>)
    decreases pairs, 0
  {
    if pairs == [] then Some([])
    else
      var v := StrictMember(pairs[0]);
      var rest := StrictPairs(pairs[1..]);
      if v.Some? && rest.Some? then Some([(pairs[0].name, v.value)] + rest.value) else None
  }

  ghost function StrictMember(m: Member): Option<Value>
    decreases m, 2
  {
    DecodeStrict(m.value)
  }

  ghost predicate DistinctMembers(pairs: seq<Member>) {
    forall i, j :: 0 <= i < j < |pairs| ==> pairs[i].name != pairs[j].name
  }

  /** No object at any depth repeats a name. */
  ghost predicate NoRepeatedName(raw: Raw) {
    match raw
    case Leaf(_) => true
    case List(items) => forall i :: 0 <= i < |items| ==> NoRepeatedName(items[i])
    case Object(pairs) => DistinctMembers(pairs) && forall i :: 0 <= i < |pairs| ==> NoRepeatedName(pairs[i].value)
  }

  /** The strict decoder accepts exactly the documents without repeated names, and then agrees with the ordinary one. */
  lemma {:induction false} StrictAgrees(raw: Raw)
    ensures DecodeStrict(raw) == if NoRepeatedName(raw) then Some(Decode(raw)) else None
    decreases raw, 1
  {
    match raw
    case Leaf(_) =>
    case List(items) => StrictItemsAgree(items);
    case Object(pairs) =>
      StrictPairsAgree(pairs);
      var ps := DecodePairs(pairs);
      assert DistinctNames(ps) <==> DistinctMembers(pairs);
  }

  lemma {:induction false} StrictItemsAgree(items: seq<Raw>)
    ensures StrictItems(items) ==
      if forall i :: 0 <= i < |items| ==> NoRepeatedName(items[i]) then Some(DecodeItems(items)) else None
    decreases items, 0
  {
    if items != [] {
      StrictAgrees(items[0]);
      StrictItemsAgree(items[1..]);
      assert forall i :: 0 <= i < |items[1..]| ==> items[1..][i] == items[i + 1];
      assert items == [items[0]] + items[1..];
    }
  }

  lemma StrictMemberAgrees(m: Member)
    ensures StrictMember(m) == if NoRepeatedName(m.value) then Some(DecodeMember(m)) else None
    decreases m, 2
  {
    StrictAgrees(m.value);
  }

  lemma {:induction false} StrictPairsAgree(pairs: seq<Member>)
    ensures StrictPairs(pairs) ==
      if forall i :: 0 <= i < |pairs| ==> NoRepeatedName(pairs[i].value) then Some(DecodePairs(pairs)) else None
    decreases pairs, 0
  {
    if pairs != [] {
      StrictMemberAgrees(pairs[0]);
      StrictPairsAgree(pairs[1..]);
      assert forall i :: 0 <= i < |pairs[1..]| ==> pairs[1..][i] == pairs[i + 1];
      assert pairs == [pairs[0]] + pairs[1..];
    }
  }
}
