/** The clean-up of saved episode records
    (models/indoor/text-based/filter_image_key.py): each selected record is
    rewritten with its observations reduced to their text, saved under a
    backup name, and the original is then deleted. The results folder is a
    map from file names to the JSON each file holds; a file that does not
    hold JSON, the encoding and the printed messages are outside the
    model. */
module FilterImageKey {
  import opened Wrappers
  import opened Text
  import opened Json

  /** `{'text': obs['text']} if isinstance(obs, dict) and 'text' in obs
      else obs`. */
  function Projected(obs: Json): (r: Json)
    ensures obs.Obj? && HasKey(obs.fields, "text") ==>
      r.Obj? && Keys(r.fields) == ["text"] && Get(r.fields, "text") == Get(obs.fields, "text")
    ensures !(obs.Obj? && HasKey(obs.fields, "text")) ==> r == obs
  {
    if obs.Obj? && HasKey(obs.fields, "text") then Obj([("text", GetOrNull(obs.fields, "text"))])
    else obs
  }

  /** The observation list with every observation projected, in order. */
  function Filtered(observations: seq<Json>): (r: seq<Json>)
    ensures |r| == |observations|
    ensures forall i :: 0 <= i < |r| ==> r[i] == Projected(observations[i])
  {
    seq(|observations|, i requires 0 <= i < |observations| => Projected(observations[i]))
  }

  /** Projecting an observation that has already been projected changes
      nothing. */
  lemma ProjectedIdempotent(obs: Json)
    ensures Projected(Projected(obs)) == Projected(obs)
  {
    if obs.Obj? && HasKey(obs.fields, "text") {
      var p := Projected(obs);
      assert Keys(p.fields) == ["text"];
      assert p.fields == [("text", GetOrNull(obs.fields, "text"))];
    }
  }

  /** Filtering a filtered record again leaves it as it is, so running the
      clean-up over its own output is harmless. */
  lemma FilteredIdempotent(observations: seq<Json>)
    ensures Filtered(Filtered(observations)) == Filtered(observations)
  {
    forall i | 0 <= i < |observations|
      ensures Filtered(Filtered(observations))[i] == Filtered(observations)[i]
    {
      ProjectedIdempotent(observations[i]);
    }
  }

  /** The record `process_json_file` writes for the loaded JSON `data`:
      None when `observations` is not a list (nothing is written), else a
      copy of every key with the observations filtered in place.
      `json_data.get` on a value that is not a dictionary raises
      AttributeError. */
  function Extracted(data: Json): (r: Result<Option<Fields>>)
    ensures r.Err? <==> !data.Obj?
    ensures r.Err? ==> r.error == AttributeError
    ensures r == Ok(None) <==> (data.Obj? && !(Get(data.fields, "observations").Some? &&
      Get(data.fields, "observations").value.Arr?))
    ensures r.Ok? && r.value.Some? ==>
      var observations := Get(data.fields, "observations").value.items;
      Keys(r.value.value) == Keys(data.fields) &&
      Get(r.value.value, "observations") == Some(Arr(Filtered(observations))) &&
      forall k :: k != "observations" ==> Get(r.value.value, k) == Get(data.fields, k)
  {
    if !data.Obj? then Err(AttributeError)
    else
      var observations := Get(data.fields, "observations");
      if observations.None? || !observations.value.Arr? then Ok(None)
      else
        var result := Set(data.fields, "observations", Arr(Filtered(observations.value.items)));
        SetKeys(data.fields, "observations", Arr(Filtered(observations.value.items)));
        assert forall k :: Get(result, k) == if k == "observations" then Some(Arr(Filtered(observations.value.items)))
          else Get(data.fields, k) by {
          forall k {
            SetGet(data.fields, "observations", Arr(Filtered(observations.value.items)), k);
          }
        }
        Ok(Some(result))
  }

  /** The last index below `n` holding '.', or -1. */
  function LastDot(name: string, n: nat): (i: int)
    requires n <= |name|
    ensures -1 <= i < n
    ensures i == -1 ==> forall j :: 0 <= j < n ==> name[j] != '.'
    ensures i != -1 ==> name[i] == '.' && forall j :: i < j < n ==> name[j] != '.'
  {
    if n == 0 then -1
    else if name[n - 1] == '.' then n - 1
    else LastDot(name, n - 1)
  }

  /** Where the suffix of a file name starts, as `pathlib` decides: at its
      last '.', unless that is the very first or the very last character;
      -1 when the name has no suffix. */
  function SuffixStart(name: string): (i: int)
    ensures i == -1 || (0 < i < |name| - 1 && name[i] == '.' && forall j :: i < j < |name| ==> name[j] != '.')
    ensures i == -1 ==> forall j :: 0 < j < |name| - 1 && name[j] == '.' ==> exists k :: j < k < |name| && name[k] == '.'
  {
    var i := LastDot(name, |name|);
    if 0 < i < |name| - 1 then i else -1
  }

  /** `Path(name).stem` and `Path(name).suffix`: the name is the stem
      followed by the suffix, and a non-empty suffix is a '.' followed by
      at least one character other than '.'. */
  function StemSuffix(name: string): (r: (string, string))
    ensures r.0 + r.1 == name
    ensures r.1 != [] ==> r.0 != [] && |r.1| >= 2 && r.1[0] == '.' && forall j :: 1 <= j < |r.1| ==> r.1[j] != '.'
  {
    var i := SuffixStart(name);
    if i == -1 then (name, [])
    else
      assert name[..i] + name[i..] == name;
      (name[..i], name[i..])
  }

  /** `path_obj.parent / f"{path_obj.stem}_backup{path_obj.suffix}"` for a
      file name: "_backup" is inserted between the stem and the suffix. */
  function BackupName(name: string): (r: string)
    ensures r == StemSuffix(name).0 + "_backup" + StemSuffix(name).1
    ensures |r| == |name| + 7
    ensures Contains(r, "backup")
  {
    var (stem, suffix) := StemSuffix(name);
    var r := stem + "_backup" + suffix;
    assert OccursAt(r, "backup", |stem| + 1);
    r
  }

  /** The backup of a record is a different file. */
  lemma BackupDiffers(name: string)
    ensures BackupName(name) != name
  {
  }

  const NumberLimit := 46

  /** The test `main` applies to one directory entry: a name ending in
      '.json' in any case, free of "backup" and "config", naming a file
      whose number (the part before the first '.') is at most 46. The
      number is read only when the other tests on the name pass; a
      non-numeric number raises ValueError. */
  function Selected(name: string, isFile: set<string>): (r: Result<bool>)
    ensures r.Err? ==> r.error.ValueError?
    ensures r.Err? <==> (IsSuffix(".json", Lower(name)) && !Contains(name, "backup") && !Contains(name, "config") &&
      ParseInt(Split(name, '.')[0]).None?)
    ensures r == Ok(true) <==> (IsSuffix(".json", Lower(name)) && !Contains(name, "backup") && !Contains(name, "config") &&
      ParseInt(Split(name, '.')[0]).Some? && ParseInt(Split(name, '.')[0]).value <= NumberLimit && name in isFile)
  {
    if !IsSuffix(".json", Lower(name)) || Contains(name, "backup") || Contains(name, "config") then Ok(false)
    else
      var prefix := Split(name, '.')[0];
      match ParseInt(prefix)
      case None => Err(ValueError("invalid literal for int() with base 10: '" + prefix + "'"))
      case Some(v) => Ok(v <= NumberLimit && name in isFile)
  }

  /** A backup written by the clean-up is never selected by a later run. */
  lemma BackupNeverSelected(name: string, isFile: set<string>)
    ensures Selected(BackupName(name), isFile) == Ok(false)
  {
  }

  /** The list comprehension of `main`: the selected names in directory
      order; the first entry whose number cannot be read stops it with
      ValueError. */
  function JsonFiles(names: seq<string>, isFile: set<string>): (r: Result<seq<string>>)
    ensures r.Err? <==> exists i :: 0 <= i < |names| && Selected(names[i], isFile).Err?
    ensures r.Ok? ==> forall n :: n in r.value <==> n in names && Selected(n, isFile) == Ok(true)
    ensures r.Ok? ==> |r.value| <= |names|
  {
    if names == [] then Ok([])
    else
      match Selected(names[0], isFile)
      case Err(e) => Err(e)
      case Ok(keep) =>
        match JsonFiles(names[1..], isFile)
        case Err(e) =>
          assert exists i :: 0 <= i < |names| && Selected(names[i], isFile).Err? by {
            var i :| 0 <= i < |names[1..]| && Selected(names[1..][i], isFile).Err?;
            assert names[i + 1] == names[1..][i];
          }
          Err(e)
        case Ok(rest) =>
          assert forall i :: 0 <= i < |names| ==> Selected(names[i], isFile).Ok? by {
            forall i | 0 <= i < |names| ensures Selected(names[i], isFile).Ok? {
              if i > 0 {
                assert names[i] == names[1..][i - 1];
              }
            }
          }
          assert forall n :: n in names <==> n == names[0] || n in names[1..] by {
            assert names == [names[0]] + names[1..];
          }
          Ok(if keep then [names[0]] + rest else rest)
  }

  /** The folder after `process_json_file(name)`: a missing file or a
      loaded value that is not a dictionary raises and is reported, and a
      record without an observation list is left alone; otherwise the
      extracted record is written to the backup name and the original
      deleted. */
  function ProcessedFolder(files: map<string, Json>, name: string): (r: map<string, Json>)
    ensures forall f :: f != name && f != BackupName(name) ==>
      (f in r <==> f in files) && (f in r ==> r[f] == files[f])
    ensures name in r ==> name in files && r[name] == files[name]
    ensures name !in r && name in files ==> (Extracted(files[name]).Ok? && Extracted(files[name]).value.Some? &&
      BackupName(name) in r && r[BackupName(name)] == Obj(Extracted(files[name]).value.value))
    ensures name in files && Extracted(files[name]).Ok? && Extracted(files[name]).value.Some? ==> name !in r
  {
    if name !in files then files
    else
      match Extracted(files[name])
      case Err(_) => files
      case Ok(None) => files
      case Ok(Some(record)) =>
        BackupDiffers(name);
        files[BackupName(name) := Obj(record)] - {name}
  }

  /** The results folder the clean-up works in. */
  class ResultsFolder {
    var files: map<string, Json>

    constructor(files: map<string, Json>)
      ensures this.files == files
    {
      this.files := files;
    }

    /** `process_json_file`: the backup is written first, and the original
        is deleted only once the backup exists. */
    method ProcessJsonFile(name: string) returns (err: Option<Error>)
      modifies this
      ensures files == ProcessedFolder(old(files), name)
      ensures err.Some? <==> name !in old(files) || !old(files)[name].Obj?
    {
      if name !in files {
        return Some(Raised("No such file or directory"));
      }
      var extracted := Extracted(files[name]);
      if extracted.Err? {
        return Some(extracted.error);
      }
      if extracted.value.None? {
        return None;
      }
      var backup := BackupName(name);
      BackupDiffers(name);
      files := files[backup := Obj(extracted.value.value)];
      if backup in files {
        files := files - {name};
      }
      return None;
    }

    /** `main`: the names are `os.listdir` of the folder in its order; the
        selection is made once, up front, and each selected record is then
        processed in turn. When the selection raises, nothing is
        processed. */
    method ProcessFolder(names: seq<string>) returns (r: Result<seq<string>>)
      modifies this
      ensures r == JsonFiles(names, old(files).Keys)
      ensures r.Err? ==> files == old(files)
      ensures r.Ok? ==> files == ProcessedAll(old(files), r.value)
    {
      var before := files;
      r := JsonFiles(names, before.Keys);
      if r.Err? {
        return;
      }
      var selected := r.value;
      for i := 0 to |selected|
        invariant files == ProcessedAll(before, selected[..i])
      {
        var _ := ProcessJsonFile(selected[i]);
        ProcessedAllStep(before, selected, i);
      }
      assert selected[..|selected|] == selected;
    }
  }

  /** The folder after processing `names` in order. */
  function ProcessedAll(files: map<string, Json>, names: seq<string>): (r: map<string, Json>)
  {
    if names == [] then files
    else ProcessedFolder(ProcessedAll(files, names[..|names| - 1]), names[|names| - 1])
  }

  lemma ProcessedAllStep(files: map<string, Json>, names: seq<string>, i: int)
    requires 0 <= i < |names|
    ensures ProcessedAll(files, names[..i + 1]) == ProcessedFolder(ProcessedAll(files, names[..i]), names[i])
  {
    assert names[..i + 1][..i] == names[..i];
  }

  /** A file that is neither processed nor the backup of a processed file
      is untouched by the whole clean-up. */
  lemma {:induction false} ProcessedAllUntouched(files: map<string, Json>, names: seq<string>, f: string)
    requires f !in names && forall n :: n in names ==> f != BackupName(n)
    ensures (f in ProcessedAll(files, names) <==> f in files)
    ensures f in files ==> ProcessedAll(files, names)[f] == files[f]
  {
    if names != [] {
      ProcessedAllUntouched(files, names[..|names| - 1], f);
    }
  }

  /** A name ending in '.json' in any case that does not start with '.',
      as every selected name does. */
  predicate JsonName(name: string) {
    IsSuffix(".json", Lower(name)) && name != [] && name[0] != '.'
  }

  /** The suffix of such a name is its last five characters. */
  lemma JsonNameStemSuffix(name: string)
    requires JsonName(name)
    ensures StemSuffix(name) == (name[..|name| - 5], name[|name| - 5..])
  {
    var n := |name|;
    assert Lower(name)[n - 5..] == ".json";
    assert Lower(name)[n - 5] == '.';
    assert n >= 6;
    forall j | n - 5 < j < n ensures name[j] != '.' {
      assert Lower(name)[j] == ".json"[j - (n - 5)];
    }
    var i := LastDot(name, n);
    assert i == n - 5;
  }

  /** Different selected names have different backups. */
  lemma BackupInjective(a: string, b: string)
    requires JsonName(a) && JsonName(b) && BackupName(a) == BackupName(b)
    ensures a == b
  {
    JsonNameStemSuffix(a);
    JsonNameStemSuffix(b);
    var n := |a|;
    assert |b| == n;
    assert a[..n - 5] == BackupName(a)[..n - 5] == BackupName(b)[..n - 5] == b[..n - 5];
    assert a[n - 5..] == BackupName(a)[n + 2..] == BackupName(b)[n + 2..] == b[n - 5..];
    assert a == a[..n - 5] + a[n - 5..];
    assert b == b[..n - 5] + b[n - 5..];
  }

  /** Every selected name is such a name and is not a backup. */
  lemma SelectedJsonName(name: string, isFile: set<string>)
    requires Selected(name, isFile) == Ok(true)
    ensures JsonName(name) && !Contains(name, "backup")
  {
    if name[0] == '.' {
      assert FindFrom(name, '.', 0) == 0;
      assert Split(name, '.')[0] == [];
      ParseIntEmpty();
    }
  }

  /** One processing step leaves a name and its backup alone when it
      works on another selected name. */
  lemma ProcessedFolderOther(files: map<string, Json>, name: string, other: string)
    requires JsonName(name) && JsonName(other) && !Contains(name, "backup") && !Contains(other, "backup")
    requires name != other
    ensures var r := ProcessedFolder(files, other);
      (name in r <==> name in files) && (name in r ==> r[name] == files[name]) &&
      (BackupName(name) in r <==> BackupName(name) in files) &&
      (BackupName(name) in r ==> r[BackupName(name)] == files[BackupName(name)])
  {
    assert name != BackupName(other) && BackupName(name) != other;
    if BackupName(name) == BackupName(other) {
      BackupInjective(name, other);
    }
  }

  /** A selected record that held an observation list ends up deleted,
      its filtered copy under the backup name: no other selected name is
      the record or its backup, so no later step touches either file. */
  lemma {:induction false} ProcessedAllRecord(files: map<string, Json>, names: seq<string>, k: int)
    requires 0 <= k < |names|
    requires forall i, j :: 0 <= i < j < |names| ==> names[i] != names[j]
    requires forall i :: 0 <= i < |names| ==> JsonName(names[i]) && !Contains(names[i], "backup")
    requires names[k] in files && Extracted(files[names[k]]).Ok? && Extracted(files[names[k]]).value.Some?
    ensures names[k] !in ProcessedAll(files, names)
    ensures BackupName(names[k]) in ProcessedAll(files, names)
    ensures ProcessedAll(files, names)[BackupName(names[k])] == Obj(Extracted(files[names[k]]).value.value)
  {
    var n := names[k];
    var front := names[..|names| - 1];
    if k == |names| - 1 {
      var prefix := names[..k];
      assert prefix == front;
      assert n !in prefix && forall m :: m in prefix ==> n != BackupName(m) by {
        forall m | m in prefix ensures n != BackupName(m) {
          assert Contains(BackupName(m), "backup");
        }
      }
      ProcessedAllUntouched(files, prefix, n);
    } else {
      assert front[k] == n;
      ProcessedAllRecord(files, front, k);
      ProcessedFolderOther(ProcessedAll(files, front), n, names[|names| - 1]);
    }
  }
}
