/** The dataset helpers of the navigation utilities: `merge_json`, which
    gathers numbered per-task files of one folder into a single list, and
    `add_task_ids`, which numbers the tasks of a list. The folder listing
    and the loaded file contents are given as data: a sequence of
    (file name, parsed content) pairs in listing order. */
module DataFiles {
  import opened Wrappers
  import opened Text
  import opened Json

  /** The four kinds of folder `merge_json` knows, matched in this order
      against the folder path. */
  function FolderKind(folder: string): (r: Option<string>)
    ensures r.Some? ==> r.value in ["navi_anno", "navi_env", "navi_traj", "res_traj"] && Contains(folder, r.value)
    ensures r.None? ==> forall p :: p in ["navi_anno", "navi_env", "navi_traj", "res_traj"] ==> !Contains(folder, p)
  {
    if Contains(folder, "navi_anno") then Some("navi_anno")
    else if Contains(folder, "navi_env") then Some("navi_env")
    else if Contains(folder, "navi_traj") then Some("navi_traj")
    else if Contains(folder, "res_traj") then Some("res_traj")
    else None
  }

  /** The length of the longest all-digit suffix of `s`. */
  function DigitSuffix(s: string): (n: nat)
    ensures n <= |s|
    ensures forall i :: |s| - n <= i < |s| ==> IsDigit(s[i])
    ensures n < |s| ==> !IsDigit(s[|s| - n - 1])
  {
    if s != [] && IsDigit(s[|s| - 1]) then DigitSuffix(s[..|s| - 1]) + 1 else 0
  }

  /** The file names the listing keeps: `<kind>_...json`. */
  predicate Listed(kind: string, name: string) {
    IsPrefix(kind + "_", name) && IsSuffix(".json", name)
  }

  /** `extract_index`: the number `N` of a name ending in `<kind>_N.json`,
      -1 when the name does not end that way. */
  function ExtractIndex(kind: string, name: string): (r: int)
    ensures r >= -1
  {
    if !IsSuffix(".json", name) then -1
    else
      var stem := name[..|name| - 5];
      var n := DigitSuffix(stem);
      var digits := stem[|stem| - n..];
      if n > 0 && IsSuffix(kind + "_", stem[..|stem| - n]) then Decimal(digits) else -1
  }

  /** Writing `kind_N.json` for a number and reading its index back gives
      that number. */
  lemma IndexOfWritten(kind: string, digits: string)
    requires digits != [] && forall i :: 0 <= i < |digits| ==> IsDigit(digits[i])
    ensures ExtractIndex(kind, kind + "_" + digits + ".json") == Decimal(digits)
  {
    var name := kind + "_" + digits + ".json";
    assert IsSuffix(".json", name) by {
      assert name[|name| - 5..] == ".json";
    }
    var stem := name[..|name| - 5];
    assert stem == kind + "_" + digits;
    DigitSuffixOf(kind + "_", digits);
    assert stem[..|stem| - |digits|] == kind + "_";
    assert stem[|stem| - |digits|..] == digits;
  }

  /** The digit suffix after a text ending in `_` is exactly the digits. */
  lemma {:induction false} DigitSuffixOf(head: string, digits: string)
    requires head != [] && head[|head| - 1] == '_'
    requires forall i :: 0 <= i < |digits| ==> IsDigit(digits[i])
    ensures DigitSuffix(head + digits) == |digits|
    decreases |digits|
  {
    var s := head + digits;
    if digits == [] {
      assert s == head;
    } else {
      assert s[..|s| - 1] == head + digits[..|digits| - 1];
      DigitSuffixOf(head, digits[..|digits| - 1]);
    }
  }

  /** The names of the listing that `merge_json` reads. */
  function JsonFiles(kind: string, listing: seq<(string, Json)>): (r: seq<(string, Json)>)
    ensures forall e :: e in r <==> e in listing && Listed(kind, e.0)
  {
    if listing == [] then []
    else
      var rest := JsonFiles(kind, listing[..|listing| - 1]);
      var last := listing[|listing| - 1];
      assert listing == listing[..|listing| - 1] + [last];
      if Listed(kind, last.0) then rest + [last] else rest
  }

  /** The largest index among the files, -1 when none has one. */
  function MaxIndex(kind: string, files: seq<(string, Json)>): (m: int)
    ensures m >= -1
  {
    if files == [] then -1
    else
      var m := MaxIndex(kind, files[..|files| - 1]);
      var i := ExtractIndex(kind, files[|files| - 1].0);
      if i > m then i else m
  }

  /** What `merged_list[i]` ends up holding: the content of the last file
      with index `i`, or `null`. */
  function Slot(kind: string, files: seq<(string, Json)>, i: nat): Json {
    if files == [] then Null
    else if ExtractIndex(kind, files[|files| - 1].0) == i then files[|files| - 1].1
    else Slot(kind, files[..|files| - 1], i)
  }

  /** POSIX `os.path.join(dir, name)`: an absolute `name` replaces `dir`;
      otherwise `name` follows `dir`, with one '/' between them unless
      `dir` is empty or already ends in '/'. */
  function PathJoin(dir: string, name: string): (r: string)
    ensures |name| > 0 && name[0] == '/' ==> r == name
    ensures !(|name| > 0 && name[0] == '/') ==>
      && |dir| + |name| <= |r| <= |dir| + |name| + 1
      && r[..|dir|] == dir && r[|r| - |name|..] == name
      && (dir != [] ==> r[|r| - |name| - 1] == '/')
      && (dir == [] || dir[|dir| - 1] == '/' ==> |r| == |dir| + |name|)
  {
    if |name| > 0 && name[0] == '/' then name
    else if dir == [] || dir[|dir| - 1] == '/' then dir + name
    else dir + "/" + name
  }

  /** `merge_json`'s result: the path of the merged file and the list it
      holds. */
  datatype Merged = Merged(path: string, items: seq<Json>)

  /** `merge_json`: an unknown folder kind leaves `json_files` unbound;
      no numbered file means nothing is written (None); otherwise a list
      with one slot per index up to the largest, each slot holding the
      last file with that index in listing order, is written to
      `os.path.join(data_folder, "<kind>_merge.json")`. */
  method MergeJson(folder: string, dataFolder: string, listing: seq<(string, Json)>)
    returns (r: Result<Option<Merged>>)
    ensures FolderKind(folder).None? <==> r == Err(UnboundLocalError("json_files"))
    ensures FolderKind(folder).Some? ==> r.Ok?
    ensures r.Ok? ==> var kind := FolderKind(folder).value; var files := JsonFiles(kind, listing);
      && (r.value.None? <==> MaxIndex(kind, files) == -1)
      && (r.value.Some? ==>
        && r.value.value.path == PathJoin(dataFolder, kind + "_merge.json")
        && |r.value.value.items| == MaxIndex(kind, files) + 1
        && forall i :: 0 <= i < |r.value.value.items| ==> r.value.value.items[i] == Slot(kind, files, i))
  {
    var kind := FolderKind(folder);
    if kind.None? {
      return Err(UnboundLocalError("json_files"));
    }
    var files := JsonFiles(kind.value, listing);
    var top := MaxIndex(kind.value, files);
    if top == -1 {
      return Ok(None);
    }
    var merged := seq(top + 1, _ => Null);
    var j := 0;
    while j < |files|
      invariant 0 <= j <= |files| && |merged| == top + 1
      invariant MaxIndex(kind.value, files[..j]) <= top
      invariant forall i :: 0 <= i < |merged| ==> merged[i] == Slot(kind.value, files[..j], i)
    {
      var idx := ExtractIndex(kind.value, files[j].0);
      assert files[..j + 1][..j] == files[..j];
      MaxIndexPrefix(kind.value, files, j + 1);
      if idx != -1 {
        merged := merged[idx := files[j].1];
      }
      j := j + 1;
    }
    assert files[..j] == files;
    return Ok(Some(Merged(PathJoin(dataFolder, kind.value + "_merge.json"), merged)));
  }

  /** The largest index of a prefix is at most the largest of the whole. */
  lemma {:induction false} MaxIndexPrefix(kind: string, files: seq<(string, Json)>, j: nat)
    requires j <= |files|
    ensures MaxIndex(kind, files[..j]) <= MaxIndex(kind, files)
    ensures j > 0 ==> ExtractIndex(kind, files[j - 1].0) <= MaxIndex(kind, files)
    decreases |files|
  {
    if j < |files| {
      var init := files[..|files| - 1];
      assert init[..j] == files[..j];
      MaxIndexPrefix(kind, init, j);
      if j > 0 {
        assert init[j - 1] == files[j - 1];
      }
    } else if j > 0 {
      assert files[..j] == files;
    }
  }

  /** A slot no file carries the index of stays `null`. */
  lemma {:induction false} SlotEmpty(kind: string, files: seq<(string, Json)>, i: nat)
    requires forall k :: 0 <= k < |files| ==> ExtractIndex(kind, files[k].0) != i
    ensures Slot(kind, files, i) == Null
    decreases |files|
  {
    if files != [] {
      var init := files[..|files| - 1];
      forall k | 0 <= k < |init|
        ensures ExtractIndex(kind, init[k].0) != i
      {
        assert init[k] == files[k];
      }
      SlotEmpty(kind, init, i);
    }
  }

  /** A slot holds the content of the last file carrying its index. */
  lemma {:induction false} SlotLast(kind: string, files: seq<(string, Json)>, i: nat, k: nat)
    requires k < |files| && ExtractIndex(kind, files[k].0) == i
    requires forall k' :: k < k' < |files| ==> ExtractIndex(kind, files[k'].0) != i
    ensures Slot(kind, files, i) == files[k].1
    decreases |files|
  {
    if k < |files| - 1 {
      var init := files[..|files| - 1];
      assert init[k] == files[k];
      forall k' | k < k' < |init|
        ensures ExtractIndex(kind, init[k'].0) != i
      {
        assert init[k'] == files[k'];
      }
      SlotLast(kind, init, i, k);
    }
  }

  /** `add_task_ids`: every dictionary of the list gets `task_id` set to
      its position. Iterating anything but a list reaches
      `element["task_id"] = idx` on a string key or character, or fails
      in `enumerate`, and raises `TypeError` (an empty dictionary or string
      is written back unchanged); so does an element that is not a
      dictionary. */
  method AddTaskIds(data: Json) returns (r: Result<Json>)
    ensures (data.Obj? && data.fields == []) || (data.Str? && data.s == []) ==> r == Ok(data)
    ensures data.Arr? ==> (r.Ok? <==> forall i :: 0 <= i < |data.items| ==> data.items[i].Obj?)
    ensures !data.Arr? && r.Ok? ==> r == Ok(data)
    ensures r.Err? ==> r.error == TypeError
    ensures r.Ok? && data.Arr? ==> r.value == Arr(Numbered(data.items))
  {
    if (data.Obj? && data.fields == []) || (data.Str? && data.s == []) {
      return Ok(data);
    }
    if !data.Arr? {
      return Err(TypeError);
    }
    var items := data.items;
    var idx := 0;
    while idx < |items|
      invariant 0 <= idx <= |items| && |items| == |data.items|
      invariant forall i :: 0 <= i < idx ==> data.items[i].Obj? && items[i] == Numbered(data.items)[i]
      invariant items[idx..] == data.items[idx..]
    {
      if !items[idx].Obj? {
        assert items[idx] == data.items[idx];
        return Err(TypeError);
      }
      items := items[idx := Obj(Set(items[idx].fields, "task_id", Int(idx)))];
      idx := idx + 1;
    }
    assert items == Numbered(data.items);
    return Ok(Arr(items));
  }

  /** The list `add_task_ids` writes: each dictionary with `task_id` set to
      its position. */
  function Numbered(items: seq<Json>): seq<Json> {
    seq(|items|, i requires 0 <= i < |items| =>
      if items[i].Obj? then Obj(Set(items[i].fields, "task_id", Int(i))) else items[i])
  }

  /** Each numbered task has its position as `task_id` and keeps every
      other key's value. */
  lemma NumberedTasks(items: seq<Json>, i: nat, k: string)
    requires i < |items| && items[i].Obj?
    ensures |Numbered(items)| == |items|
    ensures Get(Numbered(items)[i].fields, "task_id") == Some(Int(i))
    ensures k != "task_id" ==> Get(Numbered(items)[i].fields, k) == Get(items[i].fields, k)
  {
    SetGet(items[i].fields, "task_id", Int(i), k);
    SetGet(items[i].fields, "task_id", Int(i), "task_id");
  }
}
