/** The scoring scripts of the text-based indoor agent
    (models/indoor/text-based/cal_final_score.py and
    models/indoor/text-based/check_state.py): the `[object, property,
    value]` triples of a run's `state_evaluator` and of a configuration's
    "Object Final States", the set-inclusion scores between them, the
    exact comparison, and the removal of `parentReceptacles` from a
    configuration. Reading and writing the files is outside the model:
    whether a file exists is a predicate parameter, and the loaded JSON is
    given. */
module Scoring {
  import opened Wrappers
  import opened Text
  import opened Json

  const Receptacles := "parentReceptacles"
  const FinalStatesKey := "Object Final States"

  /** `results_dir / f"{number}.json_record.json"`. */
  function PrimaryFile(dir: string, number: nat): string {
    dir + "/" + NatDigits(number) + ".json_record" + ".json"
  }

  /** `results_dir / f"{number}.json_record_backup.json"`. */
  function BackupFile(dir: string, number: nat): string {
    dir + "/" + NatDigits(number) + ".json_record" + "_backup.json"
  }

  /** `find_json_file(results_dir, number)`, with `isFile` telling which
      paths exist: the primary record if it exists, else its backup if
      that exists, else nothing. */
  function FindJsonFile(dir: string, number: nat, isFile: string -> bool): (r: Option<string>)
    ensures r.Some? <==> isFile(PrimaryFile(dir, number)) || isFile(BackupFile(dir, number))
    ensures r.Some? ==> isFile(r.value) && IsSuffix(".json", r.value)
    ensures isFile(PrimaryFile(dir, number)) ==> r == Some(PrimaryFile(dir, number))
    ensures !isFile(PrimaryFile(dir, number)) && r.Some? ==> r.value == BackupFile(dir, number)
  {
    var primary := PrimaryFile(dir, number);
    var backup := BackupFile(dir, number);
    assert IsSuffix(".json", primary) by {
      assert primary[|primary| - 5..] == ".json";
    }
    assert IsSuffix(".json", backup) by {
      assert backup[|backup| - 5..] == ".json";
    }
    if isFile(primary) then Some(primary)
    else if isFile(backup) then Some(backup)
    else None
  }

  /** The message of Python's `ValueError` when `n` values are unpacked
      into three names. */
  function UnpackError(n: nat): Error {
    if n < 3 then ValueError("not enough values to unpack (expected 3, got " + NatDigits(n) + ")")
    else ValueError("too many values to unpack (expected 3)")
  }

  /** One step of `process_state_evaluator`: `object_name, property_name,
      value = item`, then `[object_name, property_name, value]` with the
      property isBroken read as isSliced. */
  function Renamed(item: Json): (r: Result<Json>)
    ensures r.Ok? <==> Iterated(item).Some? && |Iterated(item).value| == 3
    ensures r.Err? ==> r.error == if Iterated(item).None? then TypeError else UnpackError(|Iterated(item).value|)
    ensures r.Ok? ==> var xs := Iterated(item).value;
      r.value.Arr? && |r.value.items| == 3 &&
      r.value.items[0] == xs[0] && r.value.items[2] == xs[2] &&
      r.value.items[1] != Str("isBroken") &&
      (xs[1] == Str("isBroken") ==> r.value.items[1] == Str("isSliced")) &&
      (xs[1] != Str("isBroken") ==> r.value.items[1] == xs[1])
  {
    match Iterated(item)
    case None => Err(TypeError)
    case Some(xs) =>
      if |xs| != 3 then Err(UnpackError(|xs|))
      else Ok(Arr([xs[0], if xs[1] == Str("isBroken") then Str("isSliced") else xs[1], xs[2]]))
  }

  /** `process_state_evaluator(state_evaluator)` (the same in both
      scripts): one renamed triple per item, in order, or the error of the
      first item that does not unpack into three values. */
  method ProcessStateEvaluator(stateEvaluator: Json) returns (r: Result<seq<Json>>)
    ensures Iterated(stateEvaluator).None? ==> r == Err(TypeError)
    ensures Iterated(stateEvaluator).Some? ==> var items := Iterated(stateEvaluator).value;
      (r.Ok? <==> forall i :: 0 <= i < |items| ==> Renamed(items[i]).Ok?) &&
      (r.Ok? ==> |r.value| == |items| && forall i :: 0 <= i < |items| ==> r.value[i] == Renamed(items[i]).value) &&
      (r.Err? ==> exists i :: (0 <= i < |items| && Renamed(items[i]).Err? && r.error == Renamed(items[i]).error &&
        forall j :: 0 <= j < i ==> Renamed(items[j]).Ok?))
  {
    var iterated := Iterated(stateEvaluator);
    if iterated.None? {
      return Err(TypeError);
    }
    var items := iterated.value;
    var processed: seq<Json> := [];
    var i := 0;
    while i < |items|
      invariant 0 <= i <= |items| && |processed| == i
      invariant forall j :: 0 <= j < i ==> Renamed(items[j]).Ok? && processed[j] == Renamed(items[j]).value
    {
      var triple := Renamed(items[i]);
      if triple.Err? {
        return Err(triple.error);
      }
      processed := processed + [triple.value];
      i := i + 1;
    }
    return Ok(processed);
  }

  /** `[object_name, key, value]` for each entry of `changes`, in order,
      leaving out `parentReceptacles` when `drop` holds. */
  function Triples(name: Json, changes: Fields, drop: bool): seq<Json> {
    if changes == [] then []
    else
      var (k, v) := changes[|changes| - 1];
      Triples(name, changes[..|changes| - 1], drop) + (if drop && k == Receptacles then [] else [Arr([name, Str(k), v])])
  }

  /** Kept entry: not `parentReceptacles` when those are dropped. */
  predicate Kept(drop: bool, k: string) {
    !(drop && k == Receptacles)
  }

  /** The triples are exactly those of the kept entries. */
  lemma {:induction false} TriplesMembers(name: Json, changes: Fields, drop: bool, t: Json)
    ensures t in Triples(name, changes, drop) <==>
      exists i :: 0 <= i < |changes| && Kept(drop, changes[i].0) && t == Arr([name, Str(changes[i].0), changes[i].1])
  {
    if changes != [] {
      var init := changes[..|changes| - 1];
      TriplesMembers(name, init, drop, t);
      assert forall i :: 0 <= i < |init| ==> init[i] == changes[i];
    }
  }

  /** Keeping everything, there is one triple per entry, in order. */
  lemma {:induction false} TriplesAll(name: Json, changes: Fields)
    ensures |Triples(name, changes, false)| == |changes|
    ensures forall i :: 0 <= i < |changes| ==> Triples(name, changes, false)[i] == Arr([name, Str(changes[i].0), changes[i].1])
  {
    if changes != [] {
      TriplesAll(name, changes[..|changes| - 1]);
    }
  }

  /** One object of `extract_final_states`: its `object` name and the
      triples of its `changes`. `cal_final_score.py` keeps
      `parentReceptacles` (`drop` false); `check_state.py` deletes it from
      a copy first (`drop` true), so a list of changes that holds
      "parentReceptacles" raises `TypeError` at the deletion. Changes that
      are not a dictionary have no `items` (or `copy`). */
  function ObjectStates(obj: Json, drop: bool): Result<seq<Json>> {
    match Key(obj, "object")
    case Err(e) => Err(e)
    case Ok(name) =>
      match Key(obj, "changes")
      case Err(e) => Err(e)
      case Ok(changes) =>
        if changes.Obj? then Ok(Triples(name, changes.fields, drop))
        else if drop && changes.Arr? && Str(Receptacles) in changes.items then Err(TypeError)
        else Err(AttributeError)
  }

  /** The results of the objects one after the other: all their triples
      in order, or the first error. */
  function Concat(rs: seq<Result<seq<Json>>>): Result<seq<Json>> {
    if rs == [] then Ok([])
    else
      match Concat(rs[..|rs| - 1])
      case Err(e) => Err(e)
      case Ok(init) =>
        match rs[|rs| - 1]
        case Err(e) => Err(e)
        case Ok(last) => Ok(init + last)
  }

  /** The result of each object. */
  function PerObject(objs: seq<Json>, drop: bool): (rs: seq<Result<seq<Json>>>)
    ensures |rs| == |objs| && forall i :: 0 <= i < |objs| ==> rs[i] == ObjectStates(objs[i], drop)
  {
    seq(|objs|, i requires 0 <= i < |objs| => ObjectStates(objs[i], drop))
  }

  /** The triples of all objects in order, or the first object's error. */
  function FinalStates(objs: seq<Json>, drop: bool): Result<seq<Json>> {
    Concat(PerObject(objs, drop))
  }

  lemma TakeOneMore<T>(s: seq<T>, i: nat)
    requires i < |s|
    ensures s[..i + 1] == s[..i] + [s[i]]
  {
  }

  /** One more result: its triples follow, or its error ends the list. */
  lemma ConcatSnoc(init: seq<Result<seq<Json>>>, last: Result<seq<Json>>)
    ensures Concat(init + [last]).Ok? <==> Concat(init).Ok? && last.Ok?
    ensures Concat(init + [last]).Ok? ==> Concat(init + [last]).value == Concat(init).value + last.value
  {
    var rs := init + [last];
    assert rs[..|rs| - 1] == init;
  }

  /** A prefix followed by one more successful result. */
  lemma ConcatStep(rs: seq<Result<seq<Json>>>, i: nat, found: seq<Json>)
    requires i < |rs| && Concat(rs[..i]) == Ok(found) && rs[i].Ok?
    ensures Concat(rs[..i + 1]) == Ok(found + rs[i].value)
  {
    TakeOneMore(rs, i);
    ConcatSnoc(rs[..i], rs[i]);
  }

  /** The concatenation succeeds exactly when every result does. */
  lemma {:induction false} ConcatOk(rs: seq<Result<seq<Json>>>)
    ensures Concat(rs).Ok? <==> forall i :: 0 <= i < |rs| ==> rs[i].Ok?
  {
    if rs != [] {
      var init := rs[..|rs| - 1];
      ConcatOk(init);
      assert rs == init + [rs[|rs| - 1]];
      ConcatSnoc(init, rs[|rs| - 1]);
    }
  }

  /** The first failing result decides the error. */
  lemma {:induction false} ConcatStop(rs: seq<Result<seq<Json>>>, i: nat)
    requires i < |rs| && Concat(rs[..i]).Ok? && rs[i].Err?
    ensures Concat(rs) == Err(rs[i].error)
  {
    var init := rs[..|rs| - 1];
    if i == |rs| - 1 {
      assert init == rs[..i];
    } else {
      assert init[..i] == rs[..i] && init[i] == rs[i];
      ConcatStop(init, i);
    }
  }

  /** A triple belongs to the concatenation exactly when it belongs to one
      of the results. */
  lemma {:induction false} ConcatMembers(rs: seq<Result<seq<Json>>>, t: Json)
    requires Concat(rs).Ok?
    ensures forall i :: 0 <= i < |rs| ==> rs[i].Ok?
    ensures t in Concat(rs).value <==> exists i :: 0 <= i < |rs| && t in rs[i].value
  {
    ConcatOk(rs);
    if rs != [] {
      var init := rs[..|rs| - 1];
      assert rs == init + [rs[|rs| - 1]];
      ConcatSnoc(init, rs[|rs| - 1]);
      ConcatMembers(init, t);
    }
  }

  /** All objects are read exactly when each of them is, and a triple
      belongs to the result exactly when it belongs to one object's
      triples. */
  lemma FinalStatesMembers(objs: seq<Json>, drop: bool, t: Json)
    ensures FinalStates(objs, drop).Ok? <==> forall i :: 0 <= i < |objs| ==> ObjectStates(objs[i], drop).Ok?
    ensures FinalStates(objs, drop).Ok? ==>
      (t in FinalStates(objs, drop).value <==> exists i :: 0 <= i < |objs| && t in ObjectStates(objs[i], drop).value)
  {
    var rs := PerObject(objs, drop);
    ConcatOk(rs);
    if Concat(rs).Ok? {
      ConcatMembers(rs, t);
    }
  }

  /** `check_state.py`'s triples never name `parentReceptacles`. */
  lemma DroppedReceptacles(objs: seq<Json>, t: Json)
    requires FinalStates(objs, true).Ok? && t in FinalStates(objs, true).value
    ensures t.Arr? && |t.items| == 3 && t.items[1] != Str(Receptacles)
  {
    FinalStatesMembers(objs, true, t);
    var i :| 0 <= i < |objs| && t in ObjectStates(objs[i], true).value;
    var changes := Key(objs[i], "changes").value;
    TriplesMembers(Key(objs[i], "object").value, changes.fields, true, t);
  }

  /** The inner loop of `extract_final_states`: the triples of one
      object's changes appended to those found so far. */
  method AppendTriples(found: seq<Json>, name: Json, changes: Fields, drop: bool) returns (r: seq<Json>)
    ensures r == found + Triples(name, changes, drop)
  {
    r := found;
    var i := 0;
    while i < |changes|
      invariant 0 <= i <= |changes| && r == found + Triples(name, changes[..i], drop)
    {
      assert changes[..i + 1][..i] == changes[..i];
      var (k, v) := changes[i];
      if !(drop && k == Receptacles) {
        r := r + [Arr([name, Str(k), v])];
      }
      i := i + 1;
    }
    assert changes[..i] == changes;
  }

  /** One object of the outer loop of `extract_final_states`: its triples
      appended to those found so far, or its error. */
  method AppendObject(found: seq<Json>, obj: Json, drop: bool) returns (r: Result<seq<Json>>)
    ensures ObjectStates(obj, drop).Err? ==> r == Err(ObjectStates(obj, drop).error)
    ensures ObjectStates(obj, drop).Ok? ==> r == Ok(found + ObjectStates(obj, drop).value)
  {
    var name := Key(obj, "object");
    if name.Err? {
      return Err(name.error);
    }
    var changes := Key(obj, "changes");
    if changes.Err? {
      return Err(changes.error);
    }
    if !changes.value.Obj? {
      if drop && changes.value.Arr? && Str(Receptacles) in changes.value.items {
        return Err(TypeError);
      }
      return Err(AttributeError);
    }
    var appended := AppendTriples(found, name.value, changes.value.fields, drop);
    return Ok(appended);
  }

  /** `extract_final_states(object_final_states)`: the triples of every
      object in order, dropping `parentReceptacles` when `drop` holds. */
  method ExtractFinalStates(objectFinalStates: Json, drop: bool) returns (r: Result<seq<Json>>)
    ensures Iterated(objectFinalStates).None? ==> r == Err(TypeError)
    ensures Iterated(objectFinalStates).Some? ==> r == FinalStates(Iterated(objectFinalStates).value, drop)
  {
    var iterated := Iterated(objectFinalStates);
    if iterated.None? {
      return Err(TypeError);
    }
    r := ExtractAll(iterated.value, drop);
  }

  /** The outer loop of `extract_final_states`. */
  method ExtractAll(objs: seq<Json>, drop: bool) returns (r: Result<seq<Json>>)
    ensures r == FinalStates(objs, drop)
  {
    ghost var rs := PerObject(objs, drop);
    var found: seq<Json> := [];
    var i := 0;
    while i < |objs|
      invariant 0 <= i <= |objs| && Concat(rs[..i]) == Ok(found)
    {
      var next := AppendObject(found, objs[i], drop);
      if next.Err? {
        ConcatStop(rs, i);
        return next;
      }
      ConcatStep(rs, i, found);
      found := next.value;
      i := i + 1;
    }
    assert rs[..i] == rs;
    return Ok(found);
  }

  /** Python can hash neither lists nor dictionaries. */
  predicate Hashable(j: Json) {
    !j.Arr? && !j.Obj?
  }

  /** `tuple(state)` as a set element: it raises `TypeError` when the state
      cannot be iterated or holds an unhashable part. */
  function TupleOf(state: Json): (r: Result<seq<Json>>)
    ensures r.Ok? <==> Iterated(state).Some? && forall x :: x in Iterated(state).value ==> Hashable(x)
    ensures r.Ok? ==> r.value == Iterated(state).value
    ensures r.Err? ==> r.error == TypeError
  {
    match Iterated(state)
    case None => Err(TypeError)
    case Some(xs) => if forall x :: x in xs ==> Hashable(x) then Ok(xs) else Err(TypeError)
  }

  /** `set(tuple(state) for state in states)`. */
  function TupleSet(states: seq<Json>): Result<set<seq<Json>>> {
    if states == [] then Ok({})
    else
      match TupleSet(states[..|states| - 1])
      case Err(e) => Err(e)
      case Ok(init) =>
        match TupleOf(states[|states| - 1])
        case Err(e) => Err(e)
        case Ok(t) => Ok(init + {t})
  }

  /** The set is built when every state is a hashable tuple, and holds
      exactly their tuples. */
  lemma {:induction false} TupleSetMembers(states: seq<Json>, t: seq<Json>)
    ensures TupleSet(states).Ok? <==> forall i :: 0 <= i < |states| ==> TupleOf(states[i]).Ok?
    ensures TupleSet(states).Err? ==> TupleSet(states).error == TypeError
    ensures TupleSet(states).Ok? ==> (t in TupleSet(states).value <==> exists i :: 0 <= i < |states| && TupleOf(states[i]) == Ok(t))
  {
    if states != [] {
      var init := states[..|states| - 1];
      TupleSetMembers(init, t);
      assert forall i :: 0 <= i < |init| ==> init[i] == states[i];
    }
  }

  /** A state list is non-empty exactly when its set is. */
  lemma TupleSetEmpty(states: seq<Json>)
    requires TupleSet(states).Ok?
    ensures TupleSet(states).value == {} <==> states == []
  {
    TupleSetMembers(states, []);
    if states != [] {
      TupleSetMembers(states, TupleOf(states[0]).value);
    }
  }

  /** `all_ground_truth_found(state_eval_list, ground_truth_list)`: the set
      of evaluated tuples is built first, then that of the ground truth. */
  function AllGroundTruthFound(evaluated: seq<Json>, groundTruth: seq<Json>): Result<bool> {
    match TupleSet(evaluated)
    case Err(e) => Err(e)
    case Ok(found) =>
      match TupleSet(groundTruth)
      case Err(e) => Err(e)
      case Ok(wanted) => Ok(wanted <= found)
  }

  /** `calculate_percentage_found(state_eval_list, ground_truth_list)`:
      100 for an empty ground truth, before any set is built; otherwise
      the share of distinct ground-truth tuples that were evaluated. */
  function CalculatePercentageFound(evaluated: seq<Json>, groundTruth: seq<Json>): Result<real> {
    if groundTruth == [] then Ok(100.0)
    else
      match TupleSet(evaluated)
      case Err(e) => Err(e)
      case Ok(found) =>
        match TupleSet(groundTruth)
        case Err(e) => Err(e)
        case Ok(wanted) =>
          TupleSetEmpty(groundTruth);
          Ok(((|wanted * found|) as real / (|wanted|) as real) * 100.0)
  }

  /** A subset is no larger, and one as large is the whole set. */
  lemma {:induction false} SubsetCard<T>(a: set<T>, b: set<T>)
    requires a <= b
    ensures |a| <= |b| && (|a| == |b| ==> a == b)
    decreases |b|
  {
    if b != {} {
      var x :| x in b;
      SubsetCard(a - {x}, b - {x});
      if x in a {
        assert a == (a - {x}) + {x};
      } else {
        assert a == a - {x};
      }
      assert b == (b - {x}) + {x};
    }
  }

  /** All ground truth is found exactly when every ground-truth state
      equals some evaluated state as a tuple; duplicates do not matter. */
  lemma AllFoundIff(evaluated: seq<Json>, groundTruth: seq<Json>)
    requires AllGroundTruthFound(evaluated, groundTruth).Ok?
    ensures AllGroundTruthFound(evaluated, groundTruth).value <==>
      forall i :: 0 <= i < |groundTruth| ==> exists j :: 0 <= j < |evaluated| && TupleOf(evaluated[j]) == TupleOf(groundTruth[i])
  {
    var found := TupleSet(evaluated).value;
    var wanted := TupleSet(groundTruth).value;
    TupleSetMembers(groundTruth, []);
    if wanted <= found {
      forall i | 0 <= i < |groundTruth|
        ensures exists j :: 0 <= j < |evaluated| && TupleOf(evaluated[j]) == TupleOf(groundTruth[i])
      {
        var t := TupleOf(groundTruth[i]).value;
        TupleSetMembers(groundTruth, t);
        TupleSetMembers(evaluated, t);
      }
    } else {
      var t :| t in wanted && t !in found;
      TupleSetMembers(groundTruth, t);
      TupleSetMembers(evaluated, t);
      var i :| 0 <= i < |groundTruth| && TupleOf(groundTruth[i]) == Ok(t);
      assert !exists j :: 0 <= j < |evaluated| && TupleOf(evaluated[j]) == TupleOf(groundTruth[i]);
    }
  }

  /** The percentage lies in [0, 100]; it fails only where
      `all_ground_truth_found` fails, and where both succeed it is 100
      exactly when all ground truth is found. An empty ground truth scores
      100 even when the evaluated states cannot be hashed. */
  lemma PercentageRange(evaluated: seq<Json>, groundTruth: seq<Json>)
    ensures var p := CalculatePercentageFound(evaluated, groundTruth);
      var all := AllGroundTruthFound(evaluated, groundTruth);
      (groundTruth == [] ==> p == Ok(100.0)) &&
      (groundTruth != [] ==> p.Err? == all.Err?) &&
      (p.Ok? ==> 0.0 <= p.value <= 100.0) &&
      (p.Ok? && all.Ok? ==> (p.value == 100.0 <==> all.value))
  {
    if groundTruth == [] {
      TupleSetMembers(groundTruth, []);
    } else if TupleSet(evaluated).Ok? && TupleSet(groundTruth).Ok? {
      var found := TupleSet(evaluated).value;
      var wanted := TupleSet(groundTruth).value;
      TupleSetEmpty(groundTruth);
      SubsetCard(wanted * found, wanted);
      Share(|wanted * found|, |wanted|);
      assert wanted <= found <==> wanted * found == wanted;
    }
  }

  /** A share of `part` out of `whole` as a percentage lies in [0, 100]
      and is 100 exactly for the whole. */
  lemma Share(part: nat, whole: nat)
    requires part <= whole && whole > 0
    ensures var p := (part as real / whole as real) * 100.0;
      0.0 <= p <= 100.0 && (p == 100.0 <==> part == whole)
  {
    var f, w := part as real, whole as real;
    var q := f / w;
    assert q * w == f;
    assert (1.0 - q) * w == w - f;
    assert q == 1.0 <==> f == w;
  }

  /** A ground-truth triple whose value is a list, as a kept
      `parentReceptacles` list is, cannot be put in a set: both scores
      raise `TypeError`. */
  lemma UnhashableGroundTruth(evaluated: seq<Json>, groundTruth: seq<Json>, i: nat)
    requires TupleSet(evaluated).Ok? && i < |groundTruth|
    requires groundTruth[i].Arr? && |groundTruth[i].items| == 3 && groundTruth[i].items[2].Arr?
    ensures AllGroundTruthFound(evaluated, groundTruth) == Err(TypeError)
    ensures CalculatePercentageFound(evaluated, groundTruth) == Err(TypeError)
  {
    assert groundTruth[i].items[2] in Iterated(groundTruth[i]).value;
    TupleSetMembers(groundTruth, []);
  }

  /** `less` orders JSON values strictly and totally: no value is below
      itself, the order is transitive, and of two different values one is
      below the other. It stands for Python's `<` on the triples, which
      `sorted` uses. */
  ghost predicate StrictTotal(less: (Json, Json) -> bool) {
    (forall x :: !less(x, x)) &&
    (forall x, y, z :: less(x, y) && less(y, z) ==> less(x, z)) &&
    (forall x, y :: x != y ==> less(x, y) || less(y, x))
  }

  /** No item is below an earlier one. */
  predicate Ascending(s: seq<Json>, less: (Json, Json) -> bool) {
    forall i, j :: 0 <= i < j < |s| ==> !less(s[j], s[i])
  }

  /** `x` placed before the first item that is not below it. */
  function Insert(x: Json, s: seq<Json>, less: (Json, Json) -> bool): (r: seq<Json>)
    ensures multiset(r) == multiset(s) + multiset{x}
  {
    if s == [] then [x]
    else if less(s[0], x) then
      assert s == [s[0]] + s[1..];
      [s[0]] + Insert(x, s[1..], less)
    else [x] + s
  }

  /** `sorted(s)`, as an insertion sort: any sort that returns an ascending
      permutation returns this list (`AscendingUnique`). */
  function Sorted(s: seq<Json>, less: (Json, Json) -> bool): (r: seq<Json>)
    ensures multiset(r) == multiset(s)
  {
    if s == [] then []
    else
      assert s == [s[0]] + s[1..];
      Insert(s[0], Sorted(s[1..], less), less)
  }

  lemma {:induction false} InsertFacts(x: Json, s: seq<Json>, less: (Json, Json) -> bool)
    requires StrictTotal(less) && Ascending(s, less)
    ensures Ascending(Insert(x, s, less), less)
    ensures multiset(Insert(x, s, less)) == multiset(s) + multiset{x}
    decreases |s|
  {
    if s == [] {
    } else if less(s[0], x) {
      InsertFacts(x, s[1..], less);
      InsertAbove(x, s, less);
    } else {
      InsertBelow(x, s, less);
    }
  }

  /** `x` goes after a first item below it. */
  lemma InsertAbove(x: Json, s: seq<Json>, less: (Json, Json) -> bool)
    requires StrictTotal(less) && Ascending(s, less) && s != [] && less(s[0], x)
    requires Ascending(Insert(x, s[1..], less), less)
    requires multiset(Insert(x, s[1..], less)) == multiset(s[1..]) + multiset{x}
    ensures Ascending(Insert(x, s, less), less)
    ensures multiset(Insert(x, s, less)) == multiset(s) + multiset{x}
  {
    var t := Insert(x, s[1..], less);
    assert s == [s[0]] + s[1..];
    forall j | 0 <= j < |t|
      ensures !less(t[j], s[0])
    {
      assert t[j] in multiset(s[1..]) + multiset{x};
      if t[j] != x {
        var k :| 0 <= k < |s[1..]| && s[1..][k] == t[j];
        assert s[k + 1] == t[j];
      }
    }
  }

  /** `x` goes first when the first item is not below it. */
  lemma InsertBelow(x: Json, s: seq<Json>, less: (Json, Json) -> bool)
    requires StrictTotal(less) && Ascending(s, less) && s != [] && !less(s[0], x)
    ensures Ascending(Insert(x, s, less), less)
    ensures multiset(Insert(x, s, less)) == multiset(s) + multiset{x}
  {
    forall j | 0 <= j < |s|
      ensures !less(s[j], x)
    {
      if j > 0 {
        assert !less(s[j], s[0]);
      }
    }
  }

  /** Sorting gives an ascending permutation. */
  lemma {:induction false} SortedFacts(s: seq<Json>, less: (Json, Json) -> bool)
    requires StrictTotal(less)
    ensures Ascending(Sorted(s, less), less) && multiset(Sorted(s, less)) == multiset(s)
  {
    if s != [] {
      SortedFacts(s[1..], less);
      InsertFacts(s[0], Sorted(s[1..], less), less);
      assert s == [s[0]] + s[1..];
    }
  }

  /** Two non-empty ascending permutations of each other start alike. */
  lemma SameFirst(a: seq<Json>, b: seq<Json>, less: (Json, Json) -> bool)
    requires StrictTotal(less) && Ascending(a, less) && Ascending(b, less) && multiset(a) == multiset(b)
    requires a != []
    ensures b != [] && a[0] == b[0]
  {
    assert a[0] in multiset(b);
    assert b != [];
    assert b[0] in multiset(a);
    var j :| 0 <= j < |b| && b[j] == a[0];
    var k :| 0 <= k < |a| && a[k] == b[0];
    assert !less(a[0], b[0]) by {
      if j > 0 {
        assert !less(b[j], b[0]);
      }
    }
    assert !less(b[0], a[0]) by {
      if k > 0 {
        assert !less(a[k], a[0]);
      }
    }
  }

  lemma TailMultiset(a: seq<Json>)
    requires a != []
    ensures multiset(a[1..]) == multiset(a) - multiset{a[0]}
  {
    assert a == [a[0]] + a[1..];
  }

  /** Two ascending permutations of each other are equal. */
  lemma {:induction false} AscendingUnique(a: seq<Json>, b: seq<Json>, less: (Json, Json) -> bool)
    requires StrictTotal(less) && Ascending(a, less) && Ascending(b, less) && multiset(a) == multiset(b)
    ensures a == b
    decreases |a|
  {
    if a == [] {
      assert |multiset(b)| == 0;
    } else {
      SameFirst(a, b, less);
      TailMultiset(a);
      TailMultiset(b);
      AscendingUnique(a[1..], b[1..], less);
    }
  }

  /** `compare_lists(state_eval_list, final_states_list)`: the two lists
      sorted are equal, which, whatever the order, only lists with the
      same items as often can be. */
  function CompareLists(evaluated: seq<Json>, finalStates: seq<Json>, less: (Json, Json) -> bool): (r: bool)
    ensures r ==> multiset(evaluated) == multiset(finalStates)
  {
    Sorted(evaluated, less) == Sorted(finalStates, less)
  }

  /** Comparing sorted lists is comparing multisets: order does not
      matter, repetitions do. */
  lemma CompareListsIff(evaluated: seq<Json>, finalStates: seq<Json>, less: (Json, Json) -> bool)
    requires StrictTotal(less)
    ensures CompareLists(evaluated, finalStates, less) <==> multiset(evaluated) == multiset(finalStates)
  {
    SortedFacts(evaluated, less);
    SortedFacts(finalStates, less);
    if multiset(evaluated) == multiset(finalStates) {
      AscendingUnique(Sorted(evaluated, less), Sorted(finalStates, less), less);
    }
  }

  /** `"changes" in obj and "parentReceptacles" in obj["changes"]`. */
  function ObjHasReceptacles(obj: Json): Result<bool> {
    match In("changes", obj)
    case Err(e) => Err(e)
    case Ok(has) =>
      if !has then Ok(false)
      else
        match Key(obj, "changes")
        case Err(e) => Err(e)
        case Ok(changes) => In(Receptacles, changes)
  }

  /** The scan of `check_has_parent_receptacles`: true at the first object
      holding `parentReceptacles`, or the error of an object before it. */
  function AnyHasReceptacles(objs: seq<Json>): Result<bool> {
    if objs == [] then Ok(false)
    else
      match ObjHasReceptacles(objs[0])
      case Err(e) => Err(e)
      case Ok(has) => if has then Ok(true) else AnyHasReceptacles(objs[1..])
  }

  /** The scan finds `parentReceptacles` exactly when an object holds it
      and every object before it was read without; it reports none exactly
      when every object was read without. */
  lemma {:induction false} AnyHasIff(objs: seq<Json>)
    ensures AnyHasReceptacles(objs) == Ok(true) <==>
      exists i :: 0 <= i < |objs| && ObjHasReceptacles(objs[i]) == Ok(true) &&
        forall j :: 0 <= j < i ==> ObjHasReceptacles(objs[j]) == Ok(false)
    ensures AnyHasReceptacles(objs) == Ok(false) <==> forall i :: 0 <= i < |objs| ==> ObjHasReceptacles(objs[i]) == Ok(false)
  {
    if objs != [] {
      var rest := objs[1..];
      AnyHasIff(rest);
      assert forall i :: 0 <= i < |rest| ==> rest[i] == objs[i + 1];
      if AnyHasReceptacles(objs) == Ok(true) && ObjHasReceptacles(objs[0]) != Ok(true) {
        var i :| 0 <= i < |rest| && ObjHasReceptacles(rest[i]) == Ok(true) &&
          forall j :: 0 <= j < i ==> ObjHasReceptacles(rest[j]) == Ok(false);
        assert forall j :: 0 <= j < i + 1 ==> ObjHasReceptacles(objs[j]) == Ok(false) by {
          forall j | 0 <= j < i + 1
            ensures ObjHasReceptacles(objs[j]) == Ok(false)
          {
            if j > 0 {
              assert objs[j] == rest[j - 1];
            }
          }
        }
      }
      if exists i :: (0 <= i < |objs| && ObjHasReceptacles(objs[i]) == Ok(true) &&
        forall j :: 0 <= j < i ==> ObjHasReceptacles(objs[j]) == Ok(false))
      {
        var i :| 0 <= i < |objs| && ObjHasReceptacles(objs[i]) == Ok(true) &&
          forall j :: 0 <= j < i ==> ObjHasReceptacles(objs[j]) == Ok(false);
        if i > 0 {
          assert ObjHasReceptacles(rest[i - 1]) == Ok(true);
          assert forall j :: 0 <= j < i - 1 ==> ObjHasReceptacles(rest[j]) == Ok(false);
        }
      }
    }
  }

  /** `check_has_parent_receptacles(config_data)` as a value. */
  function HasParentReceptacles(config: Json): Result<bool> {
    match In(FinalStatesKey, config)
    case Err(e) => Err(e)
    case Ok(present) =>
      if !present then Ok(false)
      else
        match Key(config, FinalStatesKey)
        case Err(e) => Err(e)
        case Ok(list) =>
          match Iterated(list)
          case None => Err(TypeError)
          case Some(objs) => AnyHasReceptacles(objs)
  }

  /** `check_has_parent_receptacles(config_data)`: the loop returns at the
      first object holding `parentReceptacles`. */
  method CheckHasParentReceptacles(config: Json) returns (r: Result<bool>)
    ensures r == HasParentReceptacles(config)
  {
    var present := In(FinalStatesKey, config);
    if present.Err? {
      return Err(present.error);
    }
    if !present.value {
      return Ok(false);
    }
    var list := Key(config, FinalStatesKey);
    if list.Err? {
      return Err(list.error);
    }
    var iterated := Iterated(list.value);
    if iterated.None? {
      return Err(TypeError);
    }
    var objs := iterated.value;
    var i := 0;
    while i < |objs|
      invariant 0 <= i <= |objs| && AnyHasReceptacles(objs[i..]) == AnyHasReceptacles(objs)
    {
      var has := ObjHasReceptacles(objs[i]);
      if has.Err? {
        return Err(has.error);
      }
      if has.value {
        return Ok(true);
      }
      assert objs[i..][1..] == objs[i + 1..];
      i := i + 1;
    }
    return Ok(false);
  }

  /** One object of the deep copy in `save_config_file`, after `del
      obj["changes"]["parentReceptacles"]` where both tests pass; changes
      that are not a dictionary cannot lose a key. */
  function Stripped(obj: Json): Result<Json> {
    match In("changes", obj)
    case Err(e) => Err(e)
    case Ok(has) =>
      if !has then Ok(obj)
      else
        match Key(obj, "changes")
        case Err(e) => Err(e)
        case Ok(changes) =>
          match In(Receptacles, changes)
          case Err(e) => Err(e)
          case Ok(inside) =>
            if !inside then Ok(obj)
            else if changes.Obj? then Ok(Obj(Set(obj.fields, "changes", Obj(Delete(changes.fields, Receptacles)))))
            else Err(TypeError)
  }

  /** A stripped object no longer holds `parentReceptacles`; one that held
      none is left as it was, and only a dictionary can change. */
  lemma StrippedFacts(obj: Json)
    ensures Stripped(obj).Ok? <==> ObjHasReceptacles(obj).Ok? && (ObjHasReceptacles(obj).value ==> Key(obj, "changes").value.Obj?)
    ensures Stripped(obj).Ok? ==> ObjHasReceptacles(Stripped(obj).value) == Ok(false)
    ensures ObjHasReceptacles(obj) == Ok(false) ==> Stripped(obj) == Ok(obj)
    ensures Stripped(obj).Ok? && !obj.Obj? ==> Stripped(obj).value == obj
  {
    if ObjHasReceptacles(obj) == Ok(true) && Stripped(obj).Ok? {
      var changes := Key(obj, "changes").value;
      var fields := Set(obj.fields, "changes", Obj(Delete(changes.fields, Receptacles)));
      SetKeys(obj.fields, "changes", Obj(Delete(changes.fields, Receptacles)));
      SetGet(obj.fields, "changes", Obj(Delete(changes.fields, Receptacles)), "changes");
      assert In("changes", Obj(fields)) == Ok(true);
    }
  }

  /** The single-item result of one stripped object. */
  function Lifted(r: Result<Json>): Result<seq<Json>> {
    match r
    case Err(e) => Err(e)
    case Ok(v) => Ok([v])
  }

  function PerStripped(objs: seq<Json>): (rs: seq<Result<seq<Json>>>)
    ensures |rs| == |objs| && forall i :: 0 <= i < |objs| ==> rs[i] == Lifted(Stripped(objs[i]))
  {
    seq(|objs|, i requires 0 <= i < |objs| => Lifted(Stripped(objs[i])))
  }

  /** Concatenated single-item results keep one item per result. */
  lemma {:induction false} ConcatSingles(rs: seq<Result<seq<Json>>>)
    requires Concat(rs).Ok? && forall i :: 0 <= i < |rs| ==> rs[i].Ok? ==> |rs[i].value| == 1
    ensures |Concat(rs).value| == |rs| && forall i :: 0 <= i < |rs| ==> rs[i].Ok? && [Concat(rs).value[i]] == rs[i].value
  {
    ConcatOk(rs);
    if rs != [] {
      var init := rs[..|rs| - 1];
      assert rs == init + [rs[|rs| - 1]];
      ConcatSnoc(init, rs[|rs| - 1]);
      ConcatSingles(init);
    }
  }

  /** The configuration `save_config_file` writes when removing: the deep
      copy whose "Object Final States" list holds the stripped objects. A
      value of that key that is not a list is iterated but not changed. */
  function Revised(config: Json): Result<Json> {
    match In(FinalStatesKey, config)
    case Err(e) => Err(e)
    case Ok(present) =>
      if !present then Ok(config)
      else
        match Key(config, FinalStatesKey)
        case Err(e) => Err(e)
        case Ok(list) =>
          match Iterated(list)
          case None => Err(TypeError)
          case Some(objs) =>
            match Concat(PerStripped(objs))
            case Err(e) => Err(e)
            case Ok(stripped) =>
              if list.Arr? then Ok(Obj(Set(config.fields, FinalStatesKey, Arr(stripped)))) else Ok(config)
  }

  /** The objects of a stripped list, each one stripped. */
  lemma StrippedList(objs: seq<Json>)
    requires Concat(PerStripped(objs)).Ok?
    ensures var stripped := Concat(PerStripped(objs)).value;
      |stripped| == |objs| &&
      forall i :: 0 <= i < |objs| ==> Stripped(objs[i]).Ok? && stripped[i] == Stripped(objs[i]).value
  {
    var rs := PerStripped(objs);
    ConcatOk(rs);
    ConcatSingles(rs);
  }

  /** The list read from a configuration whose "Object Final States"
      can be iterated. */
  predicate Listed(config: Json, list: Json, objs: seq<Json>) {
    In(FinalStatesKey, config) == Ok(true) && Key(config, FinalStatesKey) == Ok(list) && Iterated(list) == Some(objs)
  }

  /** A list other than an array is iterated as strings. */
  lemma IteratedStrings(list: Json)
    requires Iterated(list).Some? && !list.Arr?
    ensures forall x :: x in Iterated(list).value ==> x.Str?
  {
  }

  /** Stripping every object of a list leaves none holding
      `parentReceptacles`. */
  lemma StrippedClean(objs: seq<Json>)
    requires Concat(PerStripped(objs)).Ok?
    ensures AnyHasReceptacles(Concat(PerStripped(objs)).value) == Ok(false)
  {
    var stripped := Concat(PerStripped(objs)).value;
    StrippedList(objs);
    forall i | 0 <= i < |objs|
      ensures ObjHasReceptacles(stripped[i]) == Ok(false)
    {
      StrippedFacts(objs[i]);
    }
    AnyHasIff(stripped);
  }

  /** Objects that hold no `parentReceptacles` are stripped to themselves. */
  lemma StrippedNone(objs: seq<Json>)
    requires AnyHasReceptacles(objs) == Ok(false)
    ensures Concat(PerStripped(objs)) == Ok(objs)
  {
    var rs := PerStripped(objs);
    AnyHasIff(objs);
    forall i | 0 <= i < |objs|
      ensures rs[i].Ok?
    {
      StrippedFacts(objs[i]);
    }
    ConcatOk(rs);
    StrippedList(objs);
    var stripped := Concat(rs).value;
    forall i | 0 <= i < |objs|
      ensures stripped[i] == objs[i]
    {
      StrippedFacts(objs[i]);
    }
    assert stripped == objs;
  }

  /** A list other than an array is left as it is once every item is
      stripped, so nothing in it holds `parentReceptacles`. */
  lemma StrippedStrings(list: Json, objs: seq<Json>)
    requires Iterated(list) == Some(objs) && !list.Arr? && Concat(PerStripped(objs)).Ok?
    ensures AnyHasReceptacles(objs) == Ok(false)
  {
    IteratedStrings(list);
    StrippedList(objs);
    forall i | 0 <= i < |objs|
      ensures ObjHasReceptacles(objs[i]) == Ok(false)
    {
      assert objs[i] in objs;
      StrippedFacts(objs[i]);
    }
    AnyHasIff(objs);
  }

  /** The revised configuration holds no `parentReceptacles`. */
  lemma RevisedClean(config: Json)
    requires Revised(config).Ok?
    ensures HasParentReceptacles(Revised(config).value) == Ok(false)
  {
    if In(FinalStatesKey, config) == Ok(true) {
      var list := Key(config, FinalStatesKey).value;
      var objs := Iterated(list).value;
      assert Listed(config, list, objs);
      if list.Arr? {
        var stripped := Concat(PerStripped(objs)).value;
        StrippedClean(objs);
        var v := Arr(stripped);
        SetKeys(config.fields, FinalStatesKey, v);
        SetGet(config.fields, FinalStatesKey, v, FinalStatesKey);
        assert Listed(Obj(Set(config.fields, FinalStatesKey, v)), v, stripped);
      } else {
        StrippedStrings(list, objs);
      }
    }
  }

  /** A configuration without `parentReceptacles` is written back
      unchanged. */
  lemma RevisedUnchanged(config: Json)
    requires HasParentReceptacles(config) == Ok(false)
    ensures Revised(config) == Ok(config)
  {
    if In(FinalStatesKey, config) == Ok(true) {
      var list := Key(config, FinalStatesKey).value;
      var objs := Iterated(list).value;
      assert Listed(config, list, objs);
      StrippedNone(objs);
      if list.Arr? {
        SetSame(config.fields, FinalStatesKey, list);
      }
    }
  }

  /** The deep copy's loop of `save_config_file`: each object stripped in
      turn. */
  method RemoveReceptacles(config: Json) returns (r: Result<Json>)
    ensures r == Revised(config)
  {
    var present := In(FinalStatesKey, config);
    if present.Err? {
      return Err(present.error);
    }
    if !present.value {
      return Ok(config);
    }
    var list := Key(config, FinalStatesKey);
    if list.Err? {
      return Err(list.error);
    }
    var iterated := Iterated(list.value);
    if iterated.None? {
      return Err(TypeError);
    }
    var objs := iterated.value;
    ghost var rs := PerStripped(objs);
    var stripped: seq<Json> := [];
    var i := 0;
    while i < |objs|
      invariant 0 <= i <= |objs| && Concat(rs[..i]) == Ok(stripped)
    {
      var next := Stripped(objs[i]);
      if next.Err? {
        ConcatStop(rs, i);
        return Err(next.error);
      }
      ConcatStep(rs, i, stripped);
      stripped := stripped + [next.value];
      i := i + 1;
    }
    assert rs[..i] == rs;
    if list.value.Arr? {
      return Ok(Obj(Set(config.fields, FinalStatesKey, Arr(stripped))));
    }
    return Ok(config);
  }

  /** `save_config_file(config_data, revised_dir, number,
      remove_receptacles)` without the write: the data saved, whether the
      configuration had `parentReceptacles`, and whether it was changed.
      When removing, the saved data holds no `parentReceptacles` and
      differs from the configuration exactly when it had some. */
  method SaveConfigFile(config: Json, removeReceptacles: bool) returns (r: Result<(Json, bool, bool)>)
    ensures r.Err? <==> HasParentReceptacles(config).Err? || (removeReceptacles && Revised(config).Err?)
    ensures r.Ok? ==> r.value.1 == HasParentReceptacles(config).value
    ensures r.Ok? && !removeReceptacles ==> r.value.0 == config && !r.value.2
    ensures r.Ok? && removeReceptacles ==> (r.value.0 == Revised(config).value && r.value.2 == r.value.1 &&
      HasParentReceptacles(r.value.0) == Ok(false) && (r.value.0 != config <==> r.value.2))
  {
    var had := CheckHasParentReceptacles(config);
    if had.Err? {
      return Err(had.error);
    }
    if !removeReceptacles {
      return Ok((config, had.value, false));
    }
    var revised := RemoveReceptacles(config);
    if revised.Err? {
      return Err(revised.error);
    }
    RevisedClean(config);
    if !had.value {
      RevisedUnchanged(config);
    }
    return Ok((revised.value, had.value, had.value));
  }
}
