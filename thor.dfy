/** The AI2-THOR kitchen environment of
    models/indoor/text-based/browser_env/envs.py (`AI2ThorEnv`); the
    vision-based copy in models/indoor/vision-based/browser_env/envs.py has
    the same `state_evaluator`, `parse_action` and `step`, and observes the
    camera frame instead of the filtered object list.

    The simulator is not modelled: the event metadata is a list of
    objects, and a controller call is the parameter `controller`, which
    gives the next event or the exception it raises. */
module Thor {
  import opened Wrappers
  import opened Text
  import opened Json

  /** An entry of `event.metadata["objects"]`: its `objectId` and its
      other fields. */
  datatype ThorObject = ThorObject(objectId: string, props: Fields)

  /** An entry of the episode's ideal states: an object name and the
      expected values of some of its fields. */
  datatype IdealChange = IdealChange(obj: string, changes: Fields)

  /** An entry of the `states` list: `[obj, key, val]`. */
  datatype State = State(obj: string, key: string, value: Json)

  datatype Event = Event(objects: seq<ThorObject>, actionReturn: Json, lastActionSuccess: bool,
                         errorMessage: string)

  /** What a controller call gives: the next event, or the message of the
      exception it raised. */
  datatype Outcome = Stepped(event: Event) | Raised(message: string)

  /** `controller.step(action=..., **kwargs)`. */
  type Controller = (string, Fields) -> Outcome

  /** `ref_obj.get(key)`, None where the key is missing. */
  function Prop(o: ThorObject, key: string): Json {
    if key == "objectId" then Str(o.objectId) else GetOrNull(o.props, key)
  }

  /** The object type in front of the first `|` of an object id. */
  function TypePrefix(id: string): string {
    Split(id, '|')[0]
  }

  /** `obj.lower() in ref_obj_name.lower()`. */
  predicate NameMatches(obj: string, o: ThorObject) {
    Contains(Lower(o.objectId), Lower(obj))
  }

  /** The value test of an `is...` change; a sliced and a broken object
      count for each other. */
  predicate ValueMatches(o: ThorObject, key: string, val: Json) {
    || Prop(o, key) == val
    || (key == "isSliced" && Prop(o, "isBroken") == val)
    || (key == "isBroken" && Prop(o, "isSliced") == val)
  }

  /** The loop over `parentReceptacles` of one object: a hit is an entry
      equal to the object's own type, compared before the first entry that
      is not a string (whose `.lower()` raises and ends the loop). */
  predicate ReceptacleHitIn(items: seq<Json>, own: string) {
    if items == [] then false
    else if !items[0].Str? then false
    else Lower(items[0].s) == own || ReceptacleHitIn(items[1..], own)
  }

  /** The receptacle test for one object. A missing or non-iterable
      `parentReceptacles` raises inside the `try` and is no hit. */
  predicate ReceptacleHit(o: ThorObject) {
    match Get(o.props, "parentReceptacles")
    case None => false
    case Some(j) =>
      match Iterated(j)
      case None => false
      case Some(items) => ReceptacleHitIn(items, Lower(TypePrefix(o.objectId)))
  }

  /** Whether `state_evaluator` counts the change `key: val` of `obj` as
      a hit. */
  predicate StateHit(obj: string, key: string, val: Json, objects: seq<ThorObject>) {
    if IsPrefix("is", key) then
      exists i :: 0 <= i < |objects| && NameMatches(obj, objects[i]) && ValueMatches(objects[i], key, val)
    else if key == "parentReceptacles" then
      exists i :: 0 <= i < |objects| && NameMatches(obj, objects[i]) && ReceptacleHit(objects[i])
    else false
  }

  /** The number of expected changes, `ideal_num`. */
  function TotalChanges(ideal: seq<IdealChange>): nat {
    if ideal == [] then 0 else TotalChanges(ideal[..|ideal| - 1]) + |ideal[|ideal| - 1].changes|
  }

  /** The hits among the changes of one object, in order. */
  function ChangeHits(obj: string, changes: Fields, objects: seq<ThorObject>): seq<State> {
    if changes == [] then []
    else
      var last := changes[|changes| - 1];
      ChangeHits(obj, changes[..|changes| - 1], objects) +
      (if StateHit(obj, last.0, last.1, objects) then [State(obj, last.0, last.1)] else [])
  }

  /** The `states` list `state_evaluator` builds. */
  function Hits(ideal: seq<IdealChange>, objects: seq<ThorObject>): seq<State> {
    if ideal == [] then []
    else
      var last := ideal[|ideal| - 1];
      Hits(ideal[..|ideal| - 1], objects) + ChangeHits(last.obj, last.changes, objects)
  }

  /** One search of `state_evaluator`: over the objects in order, stopping
      at the first hit. */
  method FindHit(obj: string, key: string, val: Json, objects: seq<ThorObject>) returns (hit: bool)
    ensures hit == StateHit(obj, key, val, objects)
  {
    hit := false;
    if !IsPrefix("is", key) && key != "parentReceptacles" {
      return;
    }
    var i := 0;
    while i < |objects| && !hit
      invariant 0 <= i <= |objects|
      invariant hit ==> StateHit(obj, key, val, objects)
      invariant !hit ==> forall k :: 0 <= k < i ==>
        !(NameMatches(obj, objects[k]) &&
          (if IsPrefix("is", key) then ValueMatches(objects[k], key, val) else ReceptacleHit(objects[k])))
    {
      var o := objects[i];
      if NameMatches(obj, o) {
        if IsPrefix("is", key) {
          hit := ValueMatches(o, key, val);
        } else {
          hit := ReceptacleHit(o);
        }
      }
      i := i + 1;
    }
  }

  /** `state_evaluator`: the share of expected changes observed, and the
      observed ones. With no expected change the division raises. */
  method StateEvaluator(ideal: seq<IdealChange>, objects: seq<ThorObject>)
    returns (r: Result<(real, seq<State>)>)
    ensures TotalChanges(ideal) == 0 ==> r == Err(ZeroDivisionError)
    ensures TotalChanges(ideal) > 0 ==>
      r == Ok((|Hits(ideal, objects)| as real / TotalChanges(ideal) as real, Hits(ideal, objects)))
  {
    var idealNum := 0;
    var hitNum := 0;
    var states: seq<State> := [];
    var i := 0;
    while i < |ideal|
      invariant 0 <= i <= |ideal|
      invariant idealNum == TotalChanges(ideal[..i])
      invariant states == Hits(ideal[..i], objects) && hitNum == |states|
    {
      var obj := ideal[i].obj;
      var changes := ideal[i].changes;
      var j := 0;
      while j < |changes|
        invariant 0 <= j <= |changes|
        invariant idealNum == TotalChanges(ideal[..i]) + j
        invariant states == Hits(ideal[..i], objects) + ChangeHits(obj, changes[..j], objects)
        invariant hitNum == |states|
      {
        var (key, val) := changes[j];
        idealNum := idealNum + 1;
        var hit := FindHit(obj, key, val, objects);
        if hit {
          hitNum := hitNum + 1;
          states := states + [State(obj, key, val)];
        }
        assert changes[..j + 1][..j] == changes[..j];
        j := j + 1;
      }
      assert changes[..j] == changes;
      assert ideal[..i + 1][..i] == ideal[..i];
      i := i + 1;
    }
    assert ideal[..i] == ideal;
    if idealNum == 0 {
      return Err(ZeroDivisionError);
    }
    return Ok((hitNum as real / idealNum as real, states));
  }

  /** Every change of one object is a hit. */
  predicate AllHit(obj: string, changes: Fields, objects: seq<ThorObject>) {
    forall k :: 0 <= k < |changes| ==> StateHit(obj, changes[k].0, changes[k].1, objects)
  }

  /** Every expected change is a hit. */
  predicate AllObserved(ideal: seq<IdealChange>, objects: seq<ThorObject>) {
    forall i :: 0 <= i < |ideal| ==> AllHit(ideal[i].obj, ideal[i].changes, objects)
  }

  lemma {:induction false} ChangeHitsBound(obj: string, changes: Fields, objects: seq<ThorObject>)
    ensures |ChangeHits(obj, changes, objects)| <= |changes|
    ensures |ChangeHits(obj, changes, objects)| == |changes| <==> AllHit(obj, changes, objects)
  {
    if changes != [] {
      var init := changes[..|changes| - 1];
      ChangeHitsBound(obj, init, objects);
      assert forall k :: 0 <= k < |init| ==> init[k] == changes[k];
    }
  }

  /** The hit count never exceeds the expected count, and reaches it
      exactly when every expected change was observed. */
  lemma {:induction false} HitsBound(ideal: seq<IdealChange>, objects: seq<ThorObject>)
    ensures |Hits(ideal, objects)| <= TotalChanges(ideal)
    ensures |Hits(ideal, objects)| == TotalChanges(ideal) <==> AllObserved(ideal, objects)
  {
    if ideal != [] {
      var init := ideal[..|ideal| - 1];
      var last := ideal[|ideal| - 1];
      HitsBound(init, objects);
      ChangeHitsBound(last.obj, last.changes, objects);
      ObservedSnoc(init, last, objects);
      assert init + [last] == ideal;
    }
  }

  lemma ObservedSnoc(init: seq<IdealChange>, last: IdealChange, objects: seq<ThorObject>)
    ensures AllObserved(init + [last], objects) <==>
      AllObserved(init, objects) && AllHit(last.obj, last.changes, objects)
  {
    var s := init + [last];
    assert forall i :: 0 <= i < |init| ==> s[i] == init[i];
    assert s[|init|] == last;
  }

  lemma Ratio(h: nat, t: nat)
    requires h <= t && t > 0
    ensures 0.0 <= h as real / t as real <= 1.0
    ensures h as real / t as real == 1.0 <==> h == t
  {
  }

  /** The score lies in [0, 1] and is 1 exactly when every expected change
      was observed. */
  lemma ScoreRange(ideal: seq<IdealChange>, objects: seq<ThorObject>)
    requires TotalChanges(ideal) > 0
    ensures var score := |Hits(ideal, objects)| as real / TotalChanges(ideal) as real;
      0.0 <= score <= 1.0 && (score == 1.0 <==> AllObserved(ideal, objects))
  {
    HitsBound(ideal, objects);
    Ratio(|Hits(ideal, objects)|, TotalChanges(ideal));
  }

  /** An expected `isSliced` value is met by `isBroken` and the other way
      round: the two keys hit on the same objects. */
  lemma SlicedBrokenInterchangeable(obj: string, val: Json, objects: seq<ThorObject>)
    ensures StateHit(obj, "isSliced", val, objects) == StateHit(obj, "isBroken", val, objects)
  {
    assert IsPrefix("is", "isSliced") && IsPrefix("is", "isBroken");
    forall i | 0 <= i < |objects|
      ensures ValueMatches(objects[i], "isSliced", val) == ValueMatches(objects[i], "isBroken", val)
    {
    }
  }

  /** The receptacle test compares an object's parents with the object's
      own type and never reads the expected value. */
  lemma ReceptacleIgnoresValue(obj: string, v1: Json, v2: Json, objects: seq<ThorObject>)
    ensures StateHit(obj, "parentReceptacles", v1, objects) == StateHit(obj, "parentReceptacles", v2, objects)
  {
    assert !IsPrefix("is", "parentReceptacles") by {
      assert "parentReceptacles"[..2] == "pa";
    }
  }

  /** Python's `round(x, 1)` on the real value of a float: the nearest
      multiple of 0.1, ties to the even tenth. */
  function Round1(x: real): real {
    var t := x * 10.0;
    var f := t.Floor;
    var frac := t - f as real;
    var n := if frac < 0.5 then f else if frac > 0.5 then f + 1 else if f % 2 == 0 then f else f + 1;
    n as real / 10.0
  }

  /** Rounding moves a value by at most half a tenth. */
  lemma RoundClose(x: real)
    ensures -0.05 <= Round1(x) - x <= 0.05
  {
    var t := x * 10.0;
    var f := t.Floor;
    assert f as real <= t < f as real + 1.0;
  }

  /** `process_value`: None is dropped, floats are rounded, booleans
      become "yes" and "no", everything else is kept. */
  function ProcessValue(j: Json): Option<Json> {
    match j
    case Null => None
    case Num(r) => Some(Num(Round1(r)))
    case Bool(b) => Some(Str(if b then "yes" else "no"))
    case _ => Some(j)
  }

  const FieldsToRemove: seq<string> := [
    "objectOrientedBoundingBox", "rotation", "position", "cornerPoints",
    "size", "visible", "isInteractable", "breakable", "isBroken",
    "openable", "isOpen", "openness", "pickupable", "isPickedUp",
    "moveable", "mass", "objectType", "objectId", "isMoving",
    "controlledObjects", "assetId", "fillLiquid",
    "isColdSource", "temperature", "isHeatSource",
    "receptacle", "isToggled", "isDirty",
    "canBeUsedUp", "isUsedUp", "salientMaterials",
    "canFillWithLiquid", "isFilledWithLiquid", "receptacleObjectIds"
  ]

  /** Whether the object's `salientMaterials` is exactly `['Food']`. */
  predicate IsFood(fields: Fields) {
    Get(fields, "salientMaterials") == Some(Arr([Str("Food")]))
  }

  /** Whether a key is dropped from an object: a listed field, a field
      ending in "able", or the cooking state of a non-food object. */
  predicate Removed(fields: Fields, key: string) {
    || key in FieldsToRemove
    || IsSuffix("able", key)
    || ((key == "isCooked" || key == "isSliced") && !IsFood(fields))
  }

  /** A receptacle entry cut to its object type. */
  function CutReceptacle(item: Json): Json {
    if item.Str? && '|' in item.s then Str(Split(item.s, '|')[0]) else item
  }

  /** A name cut in front of its first '_'. */
  function CutName(value: Json): Json {
    if value.Str? && '_' in value.s then Str(Split(value.s, '_')[0]) else value
  }

  function CutReceptacles(items: seq<Json>): seq<Json> {
    if items == [] then [] else [CutReceptacle(items[0])] + CutReceptacles(items[1..])
  }

  /** No string among `items` holds a '|'. */
  predicate NoBars(items: seq<Json>) {
    items == [] || ((items[0].Str? ==> '|' !in items[0].s) && NoBars(items[1..]))
  }

  /** `remove_fields_and_round`: a dictionary is cleaned field by field, a
      list item by item (an empty list gives None), a scalar goes through
      `process_value`. */
  function Clean(j: Json): Option<Json>
    decreases j, 1
  {
    match j
    case Obj(fields) => Some(Obj(Assemble(fields, CleanValues(j, |fields|), |fields|)))
    case Arr(items) =>
      var r := CleanItems(j, |items|);
      if r == [] then None else Some(Arr(r))
    case _ => ProcessValue(j)
  }

  /** The cleaned items among the first `n` of a list, Nones dropped. */
  function CleanItems(j: Json, n: nat): seq<Json>
    requires j.Arr? && n <= |j.items|
    decreases j, 0, n
  {
    if n == 0 then []
    else
      assert j.items[n - 1] in j.items;
      var c := Clean(j.items[n - 1]);
      CleanItems(j, n - 1) + (if c.Some? then [c.value] else [])
  }

  /** The processed value of one field, None where it is dropped. */
  function CleanEntry(j: Json, key: string, value: Json): Option<Json>
    requires j.Obj? && (key, value) in j.fields
    decreases j, 0, 0
  {
    if key == "parentReceptacles" && value.Arr? then Some(Arr(CutReceptacles(value.items)))
    else if value.Obj? then Clean(value)
    else if value.Arr? then Some(Arr(CleanItems(value, |value.items|)))
    else if key == "name" then ProcessValue(CutName(value))
    else ProcessValue(value)
  }

  /** The processed values of the first `n` fields of `j`. */
  function CleanValues(j: Json, n: nat): (r: seq<Option<Json>>)
    requires j.Obj? && n <= |j.fields|
    ensures |r| == n
    decreases j, 0, n
  {
    if n == 0 then []
    else
      assert j.fields[n - 1] in j.fields;
      CleanValues(j, n - 1) + [CleanEntry(j, j.fields[n - 1].0, j.fields[n - 1].1)]
  }

  /** The new dictionary after the first `n` fields: removed keys,
      None values and empty lists are left out, and
      `axisAlignedBoundingBox` is renamed to `bbox`. */
  function Assemble(fields: Fields, values: seq<Option<Json>>, n: nat): Fields
    requires n <= |fields| && n <= |values|
  {
    if n == 0 then []
    else
      var acc := Assemble(fields, values, n - 1);
      var key := fields[n - 1].0;
      var v := values[n - 1];
      if Removed(fields, key) || v.None? || v == Some(Arr([])) then acc
      else Set(acc, if key == "axisAlignedBoundingBox" then "bbox" else key, v.value)
  }

  /** What a processed value looks like: no None or boolean, a name
      without '_', receptacles without '|'. */
  predicate ValueOk(key: string, v: Json) {
    && !v.Null? && !v.Bool?
    && (key == "name" && v.Str? ==> '_' !in v.s)
    && (key == "parentReceptacles" && v.Arr? ==> NoBars(v.items))
  }

  /** What a field of a cleaned object looks like: none of the removed
      keys, cooking state only on food, no empty list, and `ValueOk`. */
  predicate CleanEntryOk(food: bool, key: string, v: Json) {
    && key !in FieldsToRemove
    && !IsSuffix("able", key)
    && key != "axisAlignedBoundingBox"
    && ((key == "isCooked" || key == "isSliced") ==> food)
    && v != Arr([])
    && ValueOk(key, v)
  }

  /** Every field of `fields` satisfies `CleanEntryOk`. */
  predicate AllClean(food: bool, fields: Fields) {
    fields == [] || (CleanEntryOk(food, fields[0].0, fields[0].1) && AllClean(food, fields[1..]))
  }

  lemma {:induction false} AllCleanAt(food: bool, fields: Fields, i: nat)
    requires AllClean(food, fields) && i < |fields|
    ensures CleanEntryOk(food, fields[i].0, fields[i].1)
  {
    if i > 0 {
      AllCleanAt(food, fields[1..], i - 1);
    }
  }

  lemma {:induction false} CutReceptaclesOk(items: seq<Json>)
    ensures NoBars(CutReceptacles(items))
  {
    if items != [] {
      CutReceptaclesOk(items[1..]);
      var item := items[0];
      if item.Str? && '|' in item.s {
        assert Split(item.s, '|')[0] in Split(item.s, '|');
      }
    }
  }

  /** A processed value satisfies `ValueOk`. */
  lemma CleanEntryOkValue(j: Json, key: string, value: Json)
    requires j.Obj? && (key, value) in j.fields && CleanEntry(j, key, value).Some?
    ensures ValueOk(key, CleanEntry(j, key, value).value)
  {
    if key == "parentReceptacles" && value.Arr? {
      CutReceptaclesOk(value.items);
    } else if key == "name" && value.Str? && '_' in value.s {
      assert Split(value.s, '_')[0] in Split(value.s, '_');
    }
  }

  lemma {:induction false} CleanValuesAt(j: Json, n: nat, i: nat)
    requires j.Obj? && i < n <= |j.fields|
    ensures j.fields[i] in j.fields
    ensures CleanValues(j, n)[i] == CleanEntry(j, j.fields[i].0, j.fields[i].1)
  {
    if i < n - 1 {
      CleanValuesAt(j, n - 1, i);
    }
  }

  /** Every processed value of an object satisfies `ValueOk`. */
  lemma CleanValuesOk(j: Json)
    requires j.Obj?
    ensures forall i :: 0 <= i < |j.fields| && CleanValues(j, |j.fields|)[i].Some? ==>
      ValueOk(j.fields[i].0, CleanValues(j, |j.fields|)[i].value)
  {
    forall i | 0 <= i < |j.fields| && CleanValues(j, |j.fields|)[i].Some?
      ensures ValueOk(j.fields[i].0, CleanValues(j, |j.fields|)[i].value)
    {
      CleanValuesAt(j, |j.fields|, i);
      CleanEntryOkValue(j, j.fields[i].0, j.fields[i].1);
    }
  }

  /** A kept key is none of the removed ones, and not the renamed one. */
  lemma KeptKey(fields: Fields, key: string)
    requires !Removed(fields, key)
    ensures var k := if key == "axisAlignedBoundingBox" then "bbox" else key;
      && k !in FieldsToRemove && !IsSuffix("able", k) && k != "axisAlignedBoundingBox"
      && ((k == "isCooked" || k == "isSliced") ==> IsFood(fields))
  {
    assert "bbox"[1..] == "box";
  }

  lemma {:induction false} SetKeepsOk(acc: Fields, food: bool, k: string, v: Json)
    requires AllClean(food, acc) && CleanEntryOk(food, k, v)
    ensures AllClean(food, Set(acc, k, v))
  {
    if acc != [] && acc[0].0 != k {
      SetKeepsOk(acc[1..], food, k, v);
    }
  }

  /** The first `n` processed values satisfy `ValueOk`. */
  predicate ValuesOk(fields: Fields, values: seq<Option<Json>>, n: nat)
    requires n <= |fields| && n <= |values|
  {
    forall i :: 0 <= i < n && values[i].Some? ==> ValueOk(fields[i].0, values[i].value)
  }

  lemma AssembleStep(fields: Fields, values: seq<Option<Json>>, m: nat, n: nat)
    requires n == m + 1 && n <= |fields| && n <= |values|
    requires AllClean(IsFood(fields), Assemble(fields, values, m))
    requires values[m].Some? ==> ValueOk(fields[m].0, values[m].value)
    ensures AllClean(IsFood(fields), Assemble(fields, values, n))
  {
    var key := fields[m].0;
    var v := values[m];
    if !(Removed(fields, key) || v.None? || v == Some(Arr([]))) {
      KeptKey(fields, key);
      SetKeepsOk(Assemble(fields, values, m), IsFood(fields),
                 if key == "axisAlignedBoundingBox" then "bbox" else key, v.value);
    }
  }

  /** The dictionary assembled from values satisfying `ValueOk` satisfies
      `CleanEntryOk` field by field. */
  lemma {:induction false} AssembleOk(fields: Fields, values: seq<Option<Json>>, n: nat)
    requires n <= |fields| && n <= |values| && ValuesOk(fields, values, n)
    ensures AllClean(IsFood(fields), Assemble(fields, values, n))
  {
    if n > 0 {
      var m := n - 1;
      AssembleOk(fields, values, m);
      AssembleStep(fields, values, m, n);
    }
  }

  /** A cleaned object has none of the removed fields, no
      `axisAlignedBoundingBox`, cooking state only on food, and no None,
      boolean or empty-list value; names are cut at '_' and receptacles
      at '|'. */
  lemma CleanObjectOk(j: Json)
    requires j.Obj?
    ensures Clean(j).Some? && Clean(j).value.Obj?
    ensures forall i :: 0 <= i < |Clean(j).value.fields| ==>
      CleanEntryOk(IsFood(j.fields), Clean(j).value.fields[i].0, Clean(j).value.fields[i].1)
  {
    CleanValuesOk(j);
    var out := Assemble(j.fields, CleanValues(j, |j.fields|), |j.fields|);
    AssembleOk(j.fields, CleanValues(j, |j.fields|), |j.fields|);
    forall i | 0 <= i < |out|
      ensures CleanEntryOk(IsFood(j.fields), out[i].0, out[i].1)
    {
      AllCleanAt(IsFood(j.fields), out, i);
    }
  }

  /** An entry of `event.metadata["objects"]` as a dictionary. */
  function ToJson(o: ThorObject): Json {
    Obj([("objectId", Str(o.objectId))] + o.props)
  }

  /** `remove_fields_and_round` applied to an object; by the definition
      of `Clean` this is `Clean(ToJson(o))`. */
  function CleanObject(o: ThorObject): Fields {
    var j := ToJson(o);
    Assemble(j.fields, CleanValues(j, |j.fields|), |j.fields|)
  }

  /** The non-empty cleaned objects, in order. */
  function Processed(objs: seq<ThorObject>): seq<Fields> {
    if objs == [] then []
    else
      var c := CleanObject(objs[|objs| - 1]);
      Processed(objs[..|objs| - 1]) + (if c != [] then [c] else [])
  }

  /** `obj.get('name')`. */
  function NameOf(fields: Fields): Json {
    GetOrNull(fields, "name")
  }

  /** Whether a value can be a dictionary key: lists and dictionaries
      cannot. */
  predicate Hashable(j: Json) {
    !j.Arr? && !j.Obj?
  }

  /** Whether grouping meets a truthy name that is not hashable. */
  predicate Unhashable(ps: seq<Fields>) {
    exists i :: 0 <= i < |ps| && Truthy(NameOf(ps[i])) && !Hashable(NameOf(ps[i]))
  }

  /** The keys of `object_groups`: the truthy names, in first-seen order. */
  function Names(ps: seq<Fields>): seq<Json> {
    if ps == [] then []
    else
      var ns := Names(ps[..|ps| - 1]);
      var nm := NameOf(ps[|ps| - 1]);
      if Truthy(nm) && nm !in ns then ns + [nm] else ns
  }

  /** `object_groups[nm]`: the objects named `nm`, in order. */
  function Group(ps: seq<Fields>, nm: Json): seq<Fields> {
    if ps == [] then []
    else Group(ps[..|ps| - 1], nm) + (if NameOf(ps[|ps| - 1]) == nm then [ps[|ps| - 1]] else [])
  }

  /** Whether some member of a group has `key` set to "yes". */
  predicate AnyYes(g: seq<Fields>, key: string) {
    exists m :: 0 <= m < |g| && Get(g[m], key) == Some(Str("yes"))
  }

  /** The entry a group contributes: its only member, or its first member
      with isSliced and isCooked raised to "yes" where any member has
      them. */
  function Consolidate(g: seq<Fields>): Fields {
    if g == [] then []
    else if |g| == 1 then g[0]
    else
      var f := if AnyYes(g, "isSliced") then Set(g[0], "isSliced", Str("yes")) else g[0];
      if AnyYes(g, "isCooked") then Set(f, "isCooked", Str("yes")) else f
  }

  /** `filter_object_data`: a `TypeError` where a truthy name cannot be
      a dictionary key, else one consolidated entry per name. */
  function FilterSpec(objs: seq<ThorObject>): Result<seq<Fields>> {
    var ps := Processed(objs);
    if Unhashable(ps) then Err(TypeError)
    else
      var ns := Names(ps);
      Ok(seq(|ns|, k requires 0 <= k < |ns| => Consolidate(Group(ps, ns[k]))))
  }

  /** The position of a dictionary key among the keys. */
  function IndexOf(ns: seq<Json>, nm: Json): (r: nat)
    requires nm in ns
    ensures r < |ns| && ns[r] == nm
  {
    if ns[0] == nm then 0 else 1 + IndexOf(ns[1..], nm)
  }

  lemma {:induction false} NamesFacts(ps: seq<Fields>)
    ensures forall a, b :: 0 <= a < b < |Names(ps)| ==> Names(ps)[a] != Names(ps)[b]
    ensures forall k :: 0 <= k < |Names(ps)| ==> Truthy(Names(ps)[k])
  {
    if ps != [] {
      var init := ps[..|ps| - 1];
      NamesFacts(init);
    }
  }

  lemma {:induction false} GroupEmpty(ps: seq<Fields>, nm: Json)
    requires Truthy(nm) && nm !in Names(ps)
    ensures Group(ps, nm) == []
  {
    if ps != [] {
      var init := ps[..|ps| - 1];
      GroupEmpty(init, nm);
    }
  }

  lemma GroupSnoc(ps: seq<Fields>, i: nat, nm: Json)
    requires i < |ps|
    ensures Group(ps[..i + 1], nm) == Group(ps[..i], nm) + (if NameOf(ps[i]) == nm then [ps[i]] else [])
  {
    assert ps[..i + 1][..i] == ps[..i];
  }

  lemma NamesSnoc(ps: seq<Fields>, i: nat)
    requires i < |ps|
    ensures Names(ps[..i + 1]) ==
      (if Truthy(NameOf(ps[i])) && NameOf(ps[i]) !in Names(ps[..i]) then Names(ps[..i]) + [NameOf(ps[i])]
       else Names(ps[..i]))
  {
    assert ps[..i + 1][..i] == ps[..i];
  }

  lemma UnhashableSnoc(ps: seq<Fields>, i: nat)
    requires i < |ps|
    ensures Unhashable(ps[..i + 1]) <==>
      Unhashable(ps[..i]) || (Truthy(NameOf(ps[i])) && !Hashable(NameOf(ps[i])))
  {
    var s := ps[..i + 1];
    assert forall t :: 0 <= t < i ==> s[t] == ps[..i][t];
    assert s[i] == ps[i];
  }

  lemma UnhashableAt(ps: seq<Fields>, i: nat)
    requires i < |ps| && Truthy(NameOf(ps[i])) && !Hashable(NameOf(ps[i]))
    ensures Unhashable(ps)
  {
  }

  /** The grouping loop's state after the first `i` objects. */
  ghost predicate GroupedUpTo(ps: seq<Fields>, i: nat, names: seq<Json>, groups: seq<seq<Fields>>)
    requires i <= |ps|
  {
    && names == Names(ps[..i]) && |groups| == |names|
    && (forall k :: 0 <= k < |names| ==> groups[k] == Group(ps[..i], names[k]))
    && !Unhashable(ps[..i])
  }

  /** One object of the grouping loop. */
  method GroupOne(ps: seq<Fields>, i: nat, names: seq<Json>, groups: seq<seq<Fields>>)
    returns (ok: bool, names': seq<Json>, groups': seq<seq<Fields>>)
    requires i < |ps| && GroupedUpTo(ps, i, names, groups)
    ensures ok ==> GroupedUpTo(ps, i + 1, names', groups')
    ensures !ok ==> Unhashable(ps)
  {
    var p := ps[i];
    var nm := NameOf(p);
    NamesSnoc(ps, i);
    NamesFacts(ps[..i]);
    UnhashableSnoc(ps, i);
    assert ps[..i + 1][..i] == ps[..i];
    if !Truthy(nm) {
      forall k | 0 <= k < |names|
        ensures groups[k] == Group(ps[..i + 1], names[k])
      {
        GroupSnoc(ps, i, names[k]);
      }
      return true, names, groups;
    }
    if !Hashable(nm) {
      UnhashableAt(ps, i);
      return false, names, groups;
    }
    if nm !in names {
      GroupEmpty(ps[..i], nm);
      names' := names + [nm];
      groups' := groups + [[p]];
    } else {
      var idx := IndexOf(names, nm);
      names' := names;
      groups' := groups[idx := groups[idx] + [p]];
    }
    forall k | 0 <= k < |names'|
      ensures groups'[k] == Group(ps[..i + 1], names'[k])
    {
      GroupSnoc(ps, i, names'[k]);
    }
    return true, names', groups';
  }

  lemma AnyYesSnoc(g: seq<Fields>, m: nat, key: string)
    requires m < |g|
    ensures AnyYes(g[..m + 1], key) <==> AnyYes(g[..m], key) || Get(g[m], key) == Some(Str("yes"))
  {
    var s := g[..m + 1];
    assert forall t :: 0 <= t < m ==> s[t] == g[..m][t];
    assert s[m] == g[m];
  }

  /** Whether some member of a group has `key` set to "yes": the loop of
      the consolidation. */
  method FindYes(g: seq<Fields>, key: string) returns (yes: bool)
    ensures yes == AnyYes(g, key)
  {
    yes := false;
    var m := 0;
    while m < |g|
      invariant 0 <= m <= |g|
      invariant yes == AnyYes(g[..m], key)
    {
      AnyYesSnoc(g, m, key);
      if Get(g[m], key) == Some(Str("yes")) {
        yes := true;
      }
      m := m + 1;
    }
    assert g[..m] == g;
  }

  /** The consolidation of one group. */
  method ConsolidateGroup(g: seq<Fields>) returns (f: Fields)
    requires |g| >= 1
    ensures f == Consolidate(g)
  {
    if |g| == 1 {
      return g[0];
    }
    var sliced := FindYes(g, "isSliced");
    var cooked := FindYes(g, "isCooked");
    f := g[0];
    if sliced {
      f := Set(f, "isSliced", Str("yes"));
    }
    if cooked {
      f := Set(f, "isCooked", Str("yes"));
    }
  }

  /** The first loop of `filter_object_data`: clean every object, keep
      the non-empty ones. */
  method ProcessObjects(data: seq<ThorObject>) returns (processed: seq<Fields>)
    ensures processed == Processed(data)
  {
    processed := [];
    var i := 0;
    while i < |data|
      invariant 0 <= i <= |data|
      invariant processed == Processed(data[..i])
    {
      var c := CleanObject(data[i]);
      if c != [] {
        processed := processed + [c];
      }
      assert data[..i + 1][..i] == data[..i];
      i := i + 1;
    }
    assert data[..i] == data;
  }

  /** The second loop: group by truthy name. */
  method GroupObjects(ps: seq<Fields>) returns (ok: bool, names: seq<Json>, groups: seq<seq<Fields>>)
    ensures ok ==> GroupedUpTo(ps, |ps|, names, groups)
    ensures !ok ==> Unhashable(ps)
  {
    names := [];
    groups := [];
    var i := 0;
    while i < |ps|
      invariant 0 <= i <= |ps|
      invariant GroupedUpTo(ps, i, names, groups)
    {
      ok, names, groups := GroupOne(ps, i, names, groups);
      if !ok {
        return;
      }
      i := i + 1;
    }
    ok := true;
  }

  /** The third loop: one consolidated entry per group. */
  method ConsolidateAll(groups: seq<seq<Fields>>) returns (final: seq<Fields>)
    requires forall k :: 0 <= k < |groups| ==> |groups[k]| >= 1
    ensures |final| == |groups|
    ensures forall k :: 0 <= k < |groups| ==> final[k] == Consolidate(groups[k])
  {
    final := [];
    var k := 0;
    while k < |groups|
      invariant 0 <= k <= |groups| && |final| == k
      invariant forall t :: 0 <= t < k ==> final[t] == Consolidate(groups[t])
    {
      var f := ConsolidateGroup(groups[k]);
      final := final + [f];
      k := k + 1;
    }
  }

  /** `filter_object_data`. */
  method FilterObjectData(data: seq<ThorObject>) returns (r: Result<seq<Fields>>)
    ensures r == FilterSpec(data)
  {
    var processed := ProcessObjects(data);
    var ok, names, groups := GroupObjects(processed);
    if !ok {
      return Err(TypeError);
    }
    assert processed[..|processed|] == processed;
    forall k | 0 <= k < |groups|
      ensures |groups[k]| >= 1
    {
      GroupNonEmpty(processed, names[k]);
    }
    var final := ConsolidateAll(groups);
    assert final == seq(|names|, k requires 0 <= k < |names| => Consolidate(Group(processed, names[k])));
    return Ok(final);
  }

  lemma {:induction false} GroupNonEmpty(ps: seq<Fields>, nm: Json)
    requires nm in Names(ps)
    ensures |Group(ps, nm)| >= 1
  {
    if ps != [] {
      var init := ps[..|ps| - 1];
      if nm in Names(init) {
        GroupNonEmpty(init, nm);
      }
    }
  }

  lemma {:induction false} GroupNamed(ps: seq<Fields>, nm: Json)
    ensures forall m :: 0 <= m < |Group(ps, nm)| ==> NameOf(Group(ps, nm)[m]) == nm
  {
    if ps != [] {
      var init := ps[..|ps| - 1];
      GroupNamed(init, nm);
    }
  }

  lemma {:induction false} NamesCover(ps: seq<Fields>)
    ensures forall i :: 0 <= i < |ps| && Truthy(NameOf(ps[i])) ==> NameOf(ps[i]) in Names(ps)
  {
    if ps != [] {
      var init := ps[..|ps| - 1];
      NamesCover(init);
      assert forall i :: 0 <= i < |init| ==> init[i] == ps[i];
    }
  }

  /** Consolidation keeps the first member's fields other than isSliced
      and isCooked; those become "yes" where any member has them. */
  lemma ConsolidateFields(g: seq<Fields>, key: string)
    requires |g| >= 2
    ensures key == "isSliced" || key == "isCooked" ==>
      Get(Consolidate(g), key) == if AnyYes(g, key) then Some(Str("yes")) else Get(g[0], key)
    ensures key != "isSliced" && key != "isCooked" ==> Get(Consolidate(g), key) == Get(g[0], key)
  {
    var f := if AnyYes(g, "isSliced") then Set(g[0], "isSliced", Str("yes")) else g[0];
    SetGet(g[0], "isSliced", Str("yes"), key);
    SetGet(f, "isCooked", Str("yes"), key);
  }

  /** `filter_object_data` emits one entry per distinct truthy name, in
      first-seen order: every entry is named, no name repeats, and every
      cleaned object with a truthy name is represented by its name. */
  lemma FilterOnePerName(data: seq<ThorObject>)
    requires FilterSpec(data).Ok?
    ensures var ps := Processed(data); var out := FilterSpec(data).value;
      && |out| == |Names(ps)|
      && (forall k :: 0 <= k < |out| ==> NameOf(out[k]) == Names(ps)[k] && Truthy(NameOf(out[k])))
      && (forall a, b :: 0 <= a < b < |out| ==> NameOf(out[a]) != NameOf(out[b]))
      && (forall i :: 0 <= i < |ps| && Truthy(NameOf(ps[i])) ==>
            exists k :: 0 <= k < |out| && NameOf(out[k]) == NameOf(ps[i]))
  {
    var ps := Processed(data);
    var ns := Names(ps);
    var out := FilterSpec(data).value;
    NamesFacts(ps);
    NamesCover(ps);
    forall k | 0 <= k < |out|
      ensures NameOf(out[k]) == ns[k]
    {
      var g := Group(ps, ns[k]);
      GroupNonEmpty(ps, ns[k]);
      GroupNamed(ps, ns[k]);
      if |g| >= 2 {
        ConsolidateFields(g, "name");
      }
    }
    forall i | 0 <= i < |ps| && Truthy(NameOf(ps[i]))
      ensures exists k :: 0 <= k < |out| && NameOf(out[k]) == NameOf(ps[i])
    {
      var k := IndexOf(ns, NameOf(ps[i]));
      assert NameOf(out[k]) == NameOf(ps[i]);
    }
  }

  /** `should_keep_object`: drops Drawer, CounterTop and Cabinet, and
      otherwise keeps objects with both a distance and a bbox. A name
      that `in` cannot search raises. */
  function ShouldKeep(obj: Fields): Result<bool> {
    var name := Get(obj, "name").GetOr(Str(""));
    var excluded := ["Drawer", "CounterTop", "Cabinet"];
    var hit: Option<bool> := match name
      case Str(s) => Some(exists e :: e in excluded && Contains(s, e))
      case Arr(items) => Some(exists e :: e in excluded && Str(e) in items)
      case Obj(fields) => Some(exists e :: e in excluded && HasKey(fields, e))
      case _ => None;
    if hit.None? then Err(TypeError)
    else if hit.value then Ok(false)
    else Ok(HasKey(obj, "distance") && HasKey(obj, "bbox"))
  }

  /** An object named after a drawer is one `should_keep_object` rejects. */
  lemma DrawerRejected(p: Fields, s: string)
    requires NameOf(p) == Str(s) && Contains(s, "Drawer")
    ensures ShouldKeep(p) == Ok(false)
  {
    assert "Drawer" in ["Drawer", "CounterTop", "Cabinet"];
  }

  /** `filter_object_data` never consults `should_keep_object`: an
      object that it would reject for being a drawer still has its name in
      the output. */
  lemma ExcludedStillListed(data: seq<ThorObject>, i: nat, s: string)
    requires FilterSpec(data).Ok? && i < |Processed(data)|
    requires NameOf(Processed(data)[i]) == Str(s) && Contains(s, "Drawer")
    ensures ShouldKeep(Processed(data)[i]) == Ok(false)
    ensures exists k :: 0 <= k < |FilterSpec(data).value| && NameOf(FilterSpec(data).value[k]) == Str(s)
  {
    var ps := Processed(data);
    DrawerRejected(ps[i], s);
    var t :| 0 <= t <= |s| - |"Drawer"| && OccursAt(s, "Drawer", t);
    assert Truthy(NameOf(ps[i]));
    FilterOnePerName(data);
  }

  const InvalidAction := "Invalid action or object name. Please check."
  const NotVisible := "The item is not visible. Try to open fridge or cabinets to get it."
  /** The object `Teleport` always asks the poses of. */
  const PanId := "Pan|+00.72|+00.90|-02.42"

  datatype Command = Command(action: string, kwargs: Fields)

  /** What `parse_action` returns: a command, or `("", "", error)`. */
  datatype Parsed = Parsed(cmd: Command) | Rejected(error: string)

  /** `s.replace(c, "")`. */
  function RemoveChar(s: string, c: char): (r: string)
    ensures c !in r
    ensures forall x :: x in r <==> x in s && x != c
  {
    if s == [] then [] else (if s[0] == c then [] else [s[0]]) + RemoveChar(s[1..], c)
  }

  /** The action word in front of the one '[' and the object name after
      it, stripped and without ']'; None unless the action holds exactly
      one '['. */
  function Words(action: string): Option<(string, string)> {
    var parts := Split(action, '[');
    if |parts| != 2 then None else Some((Strip(parts[0]), RemoveChar(Strip(parts[1]), ']')))
  }

  /** Whether the action word is `Teleport`. */
  predicate IsTeleport(action: string) {
    Words(action).Some? && Words(action).value.0 == "Teleport"
  }

  /** The first object whose type is `obj`, ignoring case. */
  predicate IsTarget(obj: string, o: ThorObject) {
    Lower(TypePrefix(o.objectId)) == Lower(obj)
  }

  /** A slice or cracked piece of `obj`. */
  predicate IsPiece(obj: string, o: ThorObject) {
    var id := Lower(o.objectId);
    Contains(id, Lower(obj)) && (Contains(id, "slice") || Contains(id, "cracked"))
  }

  /** The index of the first object satisfying `IsTarget` or `IsPiece`. */
  function FirstWhere(obj: string, objects: seq<ThorObject>, piece: bool): Option<nat> {
    if objects == [] then None
    else if (if piece then IsPiece(obj, objects[0]) else IsTarget(obj, objects[0])) then Some(0)
    else match FirstWhere(obj, objects[1..], piece)
      case None => None
      case Some(i) => Some(i + 1)
  }

  lemma {:induction false} FirstWhereOk(obj: string, objects: seq<ThorObject>, piece: bool)
    ensures var r := FirstWhere(obj, objects, piece);
      && (r.Some? ==> (r.value < |objects| &&
            (if piece then IsPiece(obj, objects[r.value]) else IsTarget(obj, objects[r.value]))))
      && forall k :: 0 <= k < |objects| && (r.None? || k < r.value) ==>
            !(if piece then IsPiece(obj, objects[k]) else IsTarget(obj, objects[k]))
  {
    if objects != [] {
      FirstWhereOk(obj, objects[1..], piece);
    }
  }

  /** One search loop of `parse_action`, stopping at the first match. */
  method FindFirst(obj: string, objects: seq<ThorObject>, piece: bool) returns (r: Option<nat>)
    ensures r == FirstWhere(obj, objects, piece)
  {
    var i := 0;
    while i < |objects|
      invariant 0 <= i <= |objects|
      invariant FirstWhere(obj, objects, piece) ==
        match FirstWhere(obj, objects[i..], piece) case None => None case Some(k) => Some(k + i)
    {
      assert objects[i..][1..] == objects[i + 1..];
      if (if piece then IsPiece(obj, objects[i]) else IsTarget(obj, objects[i])) {
        return Some(i);
      }
      i := i + 1;
    }
    return None;
  }

  /** The object id the command acts on: the first object of the named
      type, or, where that object is sliced or broken, the first piece of
      it when there is one. */
  function ChosenId(obj: string, objects: seq<ThorObject>): Option<string> {
    match FirstWhere(obj, objects, false)
    case None => None
    case Some(t) =>
      if t >= |objects| then None
      else
        var target := objects[t];
        if Truthy(Prop(target, "isSliced")) || Truthy(Prop(target, "isBroken")) then
          match FirstWhere(obj, objects, true)
          case Some(p) => if p < |objects| then Some(objects[p].objectId) else None
          case None => Some(target.objectId)
        else Some(target.objectId)
  }

  /** The two search loops of `parse_action`. */
  method ChooseId(obj: string, objects: seq<ThorObject>) returns (id: Option<string>)
    ensures id == ChosenId(obj, objects)
  {
    var t := FindFirst(obj, objects, false);
    FirstWhereOk(obj, objects, false);
    if t.None? {
      return None;
    }
    var target := objects[t.value];
    id := Some(target.objectId);
    if Truthy(Prop(target, "isSliced")) || Truthy(Prop(target, "isBroken")) {
      var p := FindFirst(obj, objects, true);
      FirstWhereOk(obj, objects, true);
      if p.Some? {
        id := Some(objects[p.value].objectId);
      }
    }
  }

  /** The keyword arguments each action adds. */
  function ExtraKwargs(act: string): Fields {
    if act == "PickupObject" then [("forceAction", Bool(true)), ("manualInteract", Bool(false))]
    else if act == "PutObject" then [("forceAction", Bool(true)), ("placeStationary", Bool(true))]
    else if act in ["BreakObject", "OpenObject", "SliceObject", "CookObject"] then [("forceAction", Bool(true))]
    else []
  }

  predicate HasPose(p: Fields) {
    && HasKey(p, "x") && HasKey(p, "y") && HasKey(p, "z")
    && HasKey(p, "rotation") && HasKey(p, "standing") && HasKey(p, "horizon")
  }

  /** The pose `poses[0]` where it has every field `TeleportFull` needs. */
  function PoseOf(poses: Json): Option<Fields> {
    if poses.Arr? && |poses.items| > 0 && poses.items[0].Obj? then
      var p := poses.items[0].fields;
      if HasPose(p) then Some(p) else None
    else None
  }

  function TeleportKwargs(p: Fields): Fields
    requires HasPose(p)
  {
    [("position", Obj([("x", Get(p, "x").value), ("y", Get(p, "y").value), ("z", Get(p, "z").value)])),
     ("rotation", Get(p, "rotation").value),
     ("standing", Get(p, "standing").value),
     ("horizon", Get(p, "horizon").value)]
  }

  /** What `step` observes: the filtered object list in the text-based
      environment, the camera frame (not modelled) in the vision-based
      one. */
  datatype Observation = Objects(objects: seq<Fields>) | Frame

  datatype StepResult = StepResult(observation: Observation, success: real, terminated: bool,
                                   truncated: bool, info: (bool, string))

  /** What `parse_action` answers on the event `ev`, with `poses` the
      controller's answer to `GetInteractablePoses`, asked only for
      `Teleport`. */
  function ParseOf(action: string, ev: Option<Event>, poses: Outcome): Parsed {
    var words := Words(action);
    if words.None? || ev.None? then Rejected(InvalidAction)
    else
      var (act, obj) := words.value;
      var id := ChosenId(obj, ev.value.objects);
      if id.None? then Rejected(InvalidAction)
      else if act != "Teleport" then Parsed(Command(act, [("objectId", Str(id.value))] + ExtraKwargs(act)))
      else if poses.Raised? then Rejected(InvalidAction)
      else match PoseOf(poses.event.actionReturn)
        case None => Rejected(NotVisible)
        case Some(pose) => Parsed(Command("TeleportFull", TeleportKwargs(pose)))
  }

  /** The event after `parse_action`: the pose query's event when a
      `Teleport` of a known object reached the controller, else `ev`. */
  function EventAfterParse(action: string, ev: Option<Event>, poses: Outcome): Option<Event> {
    var words := Words(action);
    if words.None? || ev.None? || words.value.0 != "Teleport" || ChosenId(words.value.1, ev.value.objects).None? || poses.Raised?
    then ev
    else Some(poses.event)
  }

  /** `AI2ThorEnv`: the current event and the episode's ideal states, None
      until `reset`. */
  class AI2ThorEnv {
    const vision: bool
    var event: Option<Event>
    var idealStates: Option<seq<IdealChange>>

    constructor(vision: bool)
      ensures this.vision == vision && event == None && idealStates == None
    {
      this.vision := vision;
      event := None;
      idealStates := None;
    }

    /** `get_obs`, or `self.event.frame` in the vision-based environment;
        before `reset` the event is None and the attribute access raises. */
    method GetObs() returns (r: Result<Observation>)
      ensures r.Ok? <==> !ObsFails()
      ensures r.Ok? ==> ObservedNow(r.value)
      ensures event.None? ==> r == Err(AttributeError)
      ensures event.Some? && vision ==> r == Ok(Frame)
      ensures event.Some? && !vision ==>
        r == match FilterSpec(event.value.objects) case Ok(v) => Ok(Objects(v)) case Err(e) => Err(e)
    {
      if event.None? {
        return Err(AttributeError);
      }
      if vision {
        return Ok(Frame);
      }
      var f := FilterObjectData(event.value.objects);
      if f.Err? {
        return Err(f.error);
      }
      return Ok(Objects(f.value));
    }

    /** `reset`: store the ideal states and spawn the objects. */
    method Reset(ideal: seq<IdealChange>, controller: Controller) returns (r: Result<Observation>)
      modifies this
      ensures idealStates == Some(ideal)
      ensures old(controller("InitialRandomSpawn", SpawnKwargs)).Raised? ==>
        event == old(event) && r == Err(Wrappers.Raised(old(controller("InitialRandomSpawn", SpawnKwargs)).message))
      ensures old(controller("InitialRandomSpawn", SpawnKwargs)).Stepped? ==>
        event == Some(old(controller("InitialRandomSpawn", SpawnKwargs)).event) &&
        r.Ok? == (vision || FilterSpec(event.value.objects).Ok?)
      ensures r.Ok? ==> ObservedNow(r.value)
    {
      idealStates := Some(ideal);
      var out := controller("InitialRandomSpawn", SpawnKwargs);
      if out.Raised? {
        return Err(Wrappers.Raised(out.message));
      }
      event := Some(out.event);
      r := GetObs();
    }

    /** The `Teleport` branch of `parse_action`, given the controller's
        answer to `GetInteractablePoses` for the pan: teleport to the first
        pose. */
    method Teleport(out: Outcome) returns (r: Parsed)
      modifies this
      ensures idealStates == old(idealStates)
      ensures out.Raised? ==> r == Rejected(InvalidAction) && event == old(event)
      ensures out.Stepped? ==> event == Some(out.event)
      ensures out.Stepped? && PoseOf(out.event.actionReturn).None? ==> r == Rejected(NotVisible)
      ensures out.Stepped? && PoseOf(out.event.actionReturn).Some? ==>
        r == Parsed(Command("TeleportFull", TeleportKwargs(PoseOf(out.event.actionReturn).value)))
    {
      if out.Raised? {
        return Rejected(InvalidAction);
      }
      event := Some(out.event);
      var pose := PoseOf(out.event.actionReturn);
      if pose.None? {
        return Rejected(NotVisible);
      }
      return Parsed(Command("TeleportFull", TeleportKwargs(pose.value)));
    }

    /** `parse_action`; `poses` is the controller's answer to
        `GetInteractablePoses` for the pan, asked only for `Teleport`. */
    method ParseAction(action: string, poses: Outcome) returns (r: Parsed)
      modifies this
      ensures r == ParseOf(action, old(event), poses) && event == EventAfterParse(action, old(event), poses)
      ensures idealStates == old(idealStates)
      ensures Words(action).None? || old(event).None? ==> r == Rejected(InvalidAction) && event == old(event)
      ensures r.Rejected? ==> r.error == InvalidAction || (r.error == NotVisible && IsTeleport(action))
      ensures !IsTeleport(action) ==> event == old(event)
      ensures r.Parsed? ==> (Words(action).Some? && old(event).Some? &&
        ChosenId(Words(action).value.1, old(event).value.objects).Some?)
      ensures r.Parsed? && !IsTeleport(action) ==>
        r.cmd == Command(Words(action).value.0,
                         [("objectId", Str(ChosenId(Words(action).value.1, old(event).value.objects).value))] +
                         ExtraKwargs(Words(action).value.0))
      ensures r.Parsed? && IsTeleport(action) ==>
        && poses.Stepped? && event == Some(poses.event)
        && PoseOf(event.value.actionReturn).Some?
        && r.cmd == Command("TeleportFull", TeleportKwargs(PoseOf(event.value.actionReturn).value))
    {
      var words := Words(action);
      if words.None? || event.None? {
        return Rejected(InvalidAction);
      }
      var (act, obj) := words.value;
      assert IsTeleport(action) <==> act == "Teleport";
      var id := ChooseId(obj, event.value.objects);
      if id.None? {
        return Rejected(InvalidAction);
      }
      if act == "Teleport" {
        r := Teleport(poses);
        return;
      }
      return Parsed(Command(act, [("objectId", Str(id.value))] + ExtraKwargs(act)));
    }

    /** What `step` answers to an action `parse_action` rejected: the
        current observation, success 0.0 and the parse error. */
    method StepRejected(error: string) returns (r: Result<StepResult>)
      ensures r.Ok? ==> r.value == StepResult(r.value.observation, 0.0, false, false, (false, error))
      ensures r.Ok? ==> ObservedNow(r.value.observation)
      ensures r.Err? ==> ObsFails()
      ensures r.Ok? <==> !ObsFails()
    {
      var obs := GetObs();
      if obs.Err? {
        return Err(obs.error);
      }
      return Ok(StepResult(obs.value, 0.0, false, false, (false, error)));
    }

    /** Whether `obs` is the observation of the current event. */
    predicate ObservedNow(obs: Observation)
      reads this
    {
      event.Some? &&
      if vision then obs == Frame
      else FilterSpec(event.value.objects).Ok? && obs == Objects(FilterSpec(event.value.objects).value)
    }

    /** Whether `get_obs` raises on the current event. */
    predicate ObsFails()
      reads this
    {
      event.None? || (!vision && FilterSpec(event.value.objects).Err?)
    }

    /** The rest of `step` once the action parsed, given the controller's
        answer to the command: record the event, score, observe. */
    method StepParsed(out: Outcome) returns (r: Result<StepResult>)
      requires event.Some?
      modifies this
      ensures idealStates == old(idealStates)
      ensures event == if out.Stepped? then Some(out.event) else old(event)
      ensures idealStates.None? ==> r == Err(TypeError)
      ensures idealStates.Some? && TotalChanges(idealStates.value) == 0 ==> r == Err(ZeroDivisionError)
      ensures r.Ok? ==> ObservedNow(r.value.observation) && !r.value.terminated && !r.value.truncated
      ensures r.Ok? ==> (r.value.info ==
        if out.Stepped? then (out.event.lastActionSuccess, out.event.errorMessage) else (false, out.message))
      ensures r.Ok? ==> r.value.success == if r.value.info.0 then 1.0 else 0.0
      ensures r.Ok? <==> idealStates.Some? && TotalChanges(idealStates.value) > 0 && !ObsFails()
    {
      var success: bool;
      var error: string;
      if out.Stepped? {
        event := Some(out.event);
        success := out.event.lastActionSuccess;
        error := out.event.errorMessage;
      } else {
        success := false;
        error := out.message;
      }
      if idealStates.None? {
        return Err(TypeError);
      }
      var score := StateEvaluator(idealStates.value, event.value.objects);
      if score.Err? {
        return Err(score.error);
      }
      // `score` is the pair (share, states): comparing it with 1.0 is never true
      var terminated := false;
      var obs := GetObs();
      if obs.Err? {
        return Err(obs.error);
      }
      return Ok(StepResult(obs.value, if success then 1.0 else 0.0, terminated, false, (success, error)));
    }

    /** `step`: parse, step the controller, score, observe. `parsed` is
        the parse of `action`. */
    method Step(action: string, controller: Controller) returns (r: Result<StepResult>, parsed: Parsed)
      modifies this
      ensures idealStates == old(idealStates)
      ensures r.Ok? ==> !r.value.terminated && !r.value.truncated && ObservedNow(r.value.observation)
      ensures r.Ok? ==> r.value.success == if r.value.info.0 then 1.0 else 0.0
      ensures parsed.Rejected? ==> r.Ok? ==> r.value.success == 0.0 && r.value.info == (false, parsed.error)
      ensures parsed.Rejected? && !IsTeleport(action) ==> event == old(event)
      ensures parsed.Parsed? && idealStates.Some? && TotalChanges(idealStates.value) == 0 ==>
        r == Err(ZeroDivisionError)
      ensures parsed.Parsed? && idealStates.None? ==> r == Err(TypeError)
      ensures parsed.Parsed? ==> (r.Ok? <==> idealStates.Some? && TotalChanges(idealStates.value) > 0 && !ObsFails())
      ensures parsed.Rejected? ==> (r.Ok? <==> !ObsFails())
      ensures var poses := controller("GetInteractablePoses", PoseQuery);
        && parsed == ParseOf(action, old(event), poses)
        && (parsed.Rejected? ==> event == EventAfterParse(action, old(event), poses) && (r.Err? ==> ObsFails()))
        && (parsed.Parsed? ==>
              var out := controller(parsed.cmd.action, parsed.cmd.kwargs);
              && event == (if out.Stepped? then Some(out.event) else EventAfterParse(action, old(event), poses))
              && (r.Ok? ==>
                    r.value.info == if out.Stepped? then (out.event.lastActionSuccess, out.event.errorMessage)
                                    else (false, out.message)))
    {
      parsed := ParseAction(action, controller("GetInteractablePoses", PoseQuery));
      if parsed.Rejected? {
        r := StepRejected(parsed.error);
        return;
      }
      r := StepParsed(controller(parsed.cmd.action, parsed.cmd.kwargs));
    }
  }

  /** `GetInteractablePoses` always asks for the pan. */
  const PoseQuery: Fields := [("objectId", Str(PanId))]

  const SpawnKwargs: Fields := [("randomSeed", Int(0)), ("forceVisible", Bool(true)),
                                ("numPlacementAttempts", Int(5)), ("placeStationary", Bool(true))]
}
